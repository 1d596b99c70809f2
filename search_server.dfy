/**
 * The stub web search of the search MCP server (servers/search_server.py):
 * two fixed results for the stripped query, formatted as numbered lines.
 */
module SearchServer {
  import opened Wrappers
  import opened Strings
  import opened Json

  /** One search result: title, URL and body. */
  datatype Hit = Hit(title: string, href: string, body: string)

  /** The two fixed results the stub returns for `query`. */
  function StubHits(query: string): (hits: seq<Hit>)
    ensures |hits| == 2
  {
    [Hit("Result 1 for " + query, "http://example.com/1", "This is a sample result for " + query),
     Hit("Result 2 for " + query, "http://example.com/2", "Another sample result discussing " + query)]
  }

  const Rule: string := "============================================================"

  const EmptyQuery := "[ERROR] Search query cannot be empty."

  const Note := "[NOTE] Please use the above information to answer the user's question."

  function Header(query: string): string {
    "[SEARCH RESULTS] Query: '" + query + "'\n"
  }

  /** Python `s[:n]`. */
  function Truncate(s: string, n: nat): (r: string)
    ensures |r| <= n && IsPrefix(r, s)
    ensures |s| <= n ==> r == s
  {
    if |s| <= n then s else s[..n]
  }

  /** The three lines of result number `number`. */
  function HitLines(number: nat, hit: Hit): seq<string> {
    ["\n" + NatToString(number) + ". " + hit.title,
     "   URL: " + hit.href,
     "   " + Truncate(hit.body, 200) + "..."]
  }

  /** The lines of all results, numbered from 1. */
  function AllHitLines(hits: seq<Hit>): (lines: seq<string>)
    ensures |lines| == 3 * |hits|
    decreases |hits|
  {
    if hits == [] then []
    else AllHitLines(hits[..|hits| - 1]) + HitLines(|hits|, hits[|hits| - 1])
  }

  /** The lines joined into the reply for a non-empty query. */
  function SearchParts(query: string, hits: seq<Hit>): seq<string> {
    [Header(query), "Search Results:", Rule] + AllHitLines(hits) + ["\n" + Rule, Note]
  }

  /** The loop that collects the lines of `execute_search`. */
  method FormatResults(query: string, hits: seq<Hit>) returns (parts: seq<string>)
    ensures parts == SearchParts(query, hits)
  {
    parts := [Header(query), "Search Results:", Rule];
    var i := 0;
    while i < |hits|
      invariant 0 <= i <= |hits|
      invariant parts == [Header(query), "Search Results:", Rule] + AllHitLines(hits[..i])
    {
      assert hits[..i + 1][..i] == hits[..i];
      parts := parts + HitLines(i + 1, hits[i]);
      i := i + 1;
    }
    assert hits[..i] == hits;
    parts := parts + ["\n" + Rule, Note];
  }

  /** Result `i` is the `i + 1`-th run of three lines, numbered `i + 1`. */
  lemma {:induction false} HitLinesAt(hits: seq<Hit>, i: int)
    requires 0 <= i < |hits|
    ensures AllHitLines(hits)[3 * i..3 * i + 3] == HitLines(i + 1, hits[i])
    decreases |hits|
  {
    var init := hits[..|hits| - 1];
    if i < |hits| - 1 {
      HitLinesAt(init, i);
      assert AllHitLines(hits)[3 * i..3 * i + 3] == AllHitLines(init)[3 * i..3 * i + 3];
    }
  }

  /**
   * What `execute_search(params)` returns or raises: the query (default "")
   * is stripped, and `.strip` raises on a value that is not a string.
   */
  function SearchOutcome(params: Dict): (r: Result<string>)
    ensures r.Raised? <==> !GetOr(params, "query", Str("")).Str?
    ensures GetOr(params, "query", Str("")).Str? && Strip(GetOr(params, "query", Str("")).s) == "" ==> r == Ok(EmptyQuery)
  {
    var query := GetOr(params, "query", Str(""));
    if !query.Str? then Raised("'" + TypeName(query) + "' object has no attribute 'strip'")
    else
      var q := Strip(query.s);
      if q == "" then Ok(EmptyQuery)
      else Ok(Join("\n", SearchParts(q, StubHits(q))))
  }

  /** `execute_search`. */
  method ExecuteSearch(params: Dict) returns (r: Result<string>)
    ensures r == SearchOutcome(params)
  {
    var query := GetOr(params, "query", Str(""));
    if !query.Str? {
      return Raised("'" + TypeName(query) + "' object has no attribute 'strip'");
    }
    var q := Strip(query.s);
    if q == "" {
      return Ok(EmptyQuery);
    }
    var parts := FormatResults(q, StubHits(q));
    return Ok(Join("\n", parts));
  }

  /** The params the `web_search` tool passes. */
  function ToolParams(query: string, maxResults: int): Dict {
    [("query", Str(query)), ("max_results", Num(maxResults))]
  }

  /** The reply of `web_search`: an exception becomes the search-failed text. */
  function ToolReply(outcome: Result<string>): string {
    match outcome
    case Ok(s) => s
    case Raised(e) => "[SEARCH FAILED] Error occurred: " + e
  }

  /** `web_search(query, max_results)`. */
  method WebSearch(query: string, maxResults: int) returns (reply: string)
    ensures reply == ToolReply(SearchOutcome(ToolParams(query, maxResults)))
  {
    var outcome := ExecuteSearch(ToolParams(query, maxResults));
    reply := ToolReply(outcome);
  }

  /** A query that is only white space is rejected with the empty-query text. */
  lemma BlankQueryRejected(query: string, maxResults: int)
    requires forall i :: 0 <= i < |query| ==> IsSpace(query[i])
    ensures SearchOutcome(ToolParams(query, maxResults)) == Ok(EmptyQuery)
  {
    assert Get(ToolParams(query, maxResults), "query") == Some(Str(query));
  }

  /** A query with text is answered with the joined lines for its stripped form. */
  lemma QueryAnswered(query: string, maxResults: int)
    requires Strip(query) != ""
    ensures var q := Strip(query);
            SearchOutcome(ToolParams(query, maxResults)) == Ok(Join("\n", SearchParts(q, StubHits(q))))
  {
    assert Get(ToolParams(query, maxResults), "query") == Some(Str(query));
  }

  /**
   * The lines: a header naming the query, three lines per result numbered
   * from 1 in order, then the closing rule and the NOTE line last.
   */
  lemma SearchLayout(query: string, hits: seq<Hit>, i: int)
    requires 0 <= i < |hits|
    ensures var parts := SearchParts(query, hits);
            |parts| == 5 + 3 * |hits| && parts[0] == Header(query) && parts[|parts| - 1] == Note
            && parts[3 + 3 * i] == "\n" + NatToString(i + 1) + ". " + hits[i].title
            && parts[3 + 3 * i + 1] == "   URL: " + hits[i].href
  {
    HitLinesAt(hits, i);
    var lines := AllHitLines(hits);
    assert lines[3 * i] == HitLines(i + 1, hits[i])[0];
    assert lines[3 * i + 1] == HitLines(i + 1, hits[i])[1];
  }

  /** The stub always has exactly two results, titled after the query. */
  lemma StubLayout(query: string)
    ensures var parts := SearchParts(query, StubHits(query));
            |parts| == 11
            && parts[3] == "\n" + NatToString(1) + ". Result 1 for " + query
            && parts[6] == "\n" + NatToString(2) + ". Result 2 for " + query
  {
    SearchLayout(query, StubHits(query), 0);
    SearchLayout(query, StubHits(query), 1);
  }

  /** Every body line holds at most 200 characters of the body between "   " and "...". */
  lemma BodiesTruncated(hits: seq<Hit>, i: int)
    requires 0 <= i < |hits|
    ensures var line := AllHitLines(hits)[3 * i + 2];
            6 <= |line| <= 206 && line[..3] == "   " && line[|line| - 3..] == "..."
            && IsPrefix(line[3..|line| - 3], hits[i].body)
  {
    HitLinesAt(hits, i);
    var body := Truncate(hits[i].body, 200);
    var line := AllHitLines(hits)[3 * i + 2];
    assert line == HitLines(i + 1, hits[i])[2];
    assert line == "   " + body + "...";
    assert line[3..|line| - 3] == body;
  }

  /** `max_results` never affects the reply. */
  lemma MaxResultsIgnored(query: string, m: int, n: int)
    ensures SearchOutcome(ToolParams(query, m)) == SearchOutcome(ToolParams(query, n))
  {
    assert Get(ToolParams(query, m), "query") == Some(Str(query));
    assert Get(ToolParams(query, n), "query") == Some(Str(query));
  }
}
