/** The search_web tool, which works only as a stub: a non-blank query gets
    a list of numbered dummy results built from the query. */
module SearchWebTool {
  import opened Common
  import opened Json

  const EmptyQuery := "Search query cannot be empty."
  const DefaultCount := 3
  const StubStatus := "success_stub_mode"

  /** The queries searched for: strings with something other than whitespace. */
  predicate ValidQuery(query: Json) {
    Truthy(query) && query.JStr? && Strip(query.s) != ""
  }

  /** The number of results returned: a positive integer is taken as it
      is, anything else becomes 3. */
  function ResultCount(numResults: Json): (r: nat)
    ensures IsInt(numResults) && IntValue(numResults) > 0 ==> r == IntValue(numResults)
    ensures !IsInt(numResults) || IntValue(numResults) <= 0 ==> r == DefaultCount
  {
    if IsInt(numResults) && IntValue(numResults) > 0 then IntValue(numResults) else DefaultCount
  }

  /** The query as it appears in a result's url: spaces become '+'. */
  function UrlQuery(query: string): string {
    Replace(query, " ", "+")
  }

  /** The i-th dummy result for `query`. */
  function DummyResult(query: string, i: nat): Json {
    JObj(map[
      "title" := JStr("Dummy Search Result " + NatToString(i) + " for '" + query + "'"),
      "url" := JStr("http://example.com/search?q=" + UrlQuery(query) + "&result=" + NatToString(i)),
      "snippet" := JStr("This is a dummy snippet for search result " + NatToString(i) + " related to '" + query +
                        "'. It simulates found text.")])
  }

  /** Replacing one character by another changes exactly the positions
      that held it. */
  lemma {:induction false} ReplaceChar(s: string, a: char, b: char)
    ensures |Replace(s, [a], [b])| == |s|
    ensures forall i :: 0 <= i < |s| ==> Replace(s, [a], [b])[i] == if s[i] == a then b else s[i]
    decreases |s|
  {
    if |s| >= 1 {
      ReplaceChar(s[1..], a, b);
      var rest := Replace(s[1..], [a], [b]);
      if OccursAt(s, [a], 0) {
        assert s[0] == a;
        assert Replace(s, [a], [b]) == [b] + rest;
      } else {
        assert s[0] != a;
        assert Replace(s, [a], [b]) == [s[0]] + rest;
      }
    }
  }

  /** The url form of a query has the query's length, holds no space, and
      differs from it only where the query had a space. */
  lemma UrlQuerySpec(query: string)
    ensures |UrlQuery(query)| == |query|
    ensures forall i :: 0 <= i < |query| ==> UrlQuery(query)[i] != ' '
    ensures forall i :: 0 <= i < |query| && query[i] != ' ' ==> UrlQuery(query)[i] == query[i]
  {
    ReplaceChar(query, ' ', '+');
  }

  /** A result's url holds no space, whatever the query. */
  lemma ResultUrlHasNoSpace(query: string, i: nat)
    ensures var url := DummyResult(query, i).fields["url"].s;
            forall k :: 0 <= k < |url| ==> url[k] != ' '
  {
    UrlQuerySpec(query);
    var a, u, m, d := "http://example.com/search?q=", UrlQuery(query), "&result=", NatToString(i);
    var url := a + u + m + d;
    assert DummyResult(query, i).fields["url"].s == url;
    forall k | 0 <= k < |url|
      ensures url[k] != ' '
    {
      if k < |a| {
        assert url[k] == a[k];
      } else if k < |a| + |u| {
        assert url[k] == u[k - |a|];
      } else if k < |a| + |u| + |m| {
        assert url[k] == m[k - |a| - |u|];
      } else {
        assert url[k] == d[k - |a| - |u| - |m|];
      }
    }
  }

  /** The search_web tool; it has no search client and is always a stub. */
  class SearchWebTool {
    const isStub: bool

    constructor()
      ensures isStub
    {
      isStub := true;
    }

    /** Refuses a blank query; otherwise returns dummy results numbered
        1 to the requested count (3 when that is not a positive integer). */
    method Execute(query: Json, numResults: Json) returns (r: Json)
      ensures !ValidQuery(query) ==> r == ErrorResult(EmptyQuery)
      ensures ValidQuery(query) ==>
                r.JObj? && r.fields.Keys == {"result", "status"} &&
                r.fields["status"] == JStr(StubStatus) && r.fields["result"].JList? &&
                |r.fields["result"].items| == ResultCount(numResults) &&
                forall j :: 0 <= j < |r.fields["result"].items| ==> r.fields["result"].items[j] == DummyResult(query.s, j + 1)
    {
      if !Truthy(query) || !query.JStr? || Strip(query.s) == "" {
        return ErrorResult(EmptyQuery);
      }
      var n: nat := DefaultCount;
      if IsInt(numResults) && IntValue(numResults) > 0 {
        n := IntValue(numResults);
      }
      var results := DummyResults(query.s, n);
      r := SuccessResult(JList(results), StubStatus);
    }

    /** The loop building results 1 to `n`. */
    method DummyResults(query: string, n: nat) returns (results: seq<Json>)
      ensures |results| == n
      ensures forall j :: 0 <= j < n ==> results[j] == DummyResult(query, j + 1)
    {
      results := [];
      var i := 1;
      while i <= n
        invariant 1 <= i <= n + 1
        invariant |results| == i - 1
        invariant forall j :: 0 <= j < |results| ==> results[j] == DummyResult(query, j + 1)
      {
        results := results + [DummyResult(query, i)];
        i := i + 1;
      }
    }
  }
}
