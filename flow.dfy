/**
  The control flow of one click of "Analyze Churn" in churnAnalysis.py:
  the two API keys are checked, the search API is queried, the completion
  API summarises what came back, and the reasons are extracted from the
  summary for the chart. The two network clients are not modelled: each is a
  function parameter that either returns text or raises with a message, so
  which calls are made, and with what, shows in how the outcome depends on
  those parameters.
 */
module ChurnFlow {
  import opened Wrappers
  import opened PyText
  import opened ReasonExtraction

  /** What a call into a network client does: return its text, or raise. */
  datatype CallResult = Returned(text: string) | Raised(message: string)

  const QueryPrefix: string := "churn reasons for "
  const QueryJoin: string := " to "

  const KeysMissingMessage: string := "Please provide both OpenAI and Gorilla API keys."
  const NoDataMessage: string := "No data available from Gorilla API."
  const FetchErrorPrefix: string := "Error fetching Gorilla data: "
  const CompletionErrorPrefix: string := "Error using OpenAI: "

  /** The query `fetch_gorilla_data` sends (churnAnalysis.py:36): the prefix,
      the company, " to ", the competitor, with nothing in between. */
  function SearchQuery(company: string, competitor: string): (q: string)
    ensures |q| == |QueryPrefix| + |company| + |QueryJoin| + |competitor|
    ensures q[..|QueryPrefix|] == QueryPrefix
    ensures q[|QueryPrefix|..|QueryPrefix| + |company|] == company
    ensures q[|QueryPrefix| + |company|..|QueryPrefix| + |company| + |QueryJoin|] == QueryJoin
    ensures q[|QueryPrefix| + |company| + |QueryJoin|..] == competitor
  {
    QueryPrefix + company + QueryJoin + competitor
  }

  /** Knowing how long the company name is, the query gives back both names. */
  lemma QueryDeterminesNames(c1: string, d1: string, c2: string, d2: string)
    requires |c1| == |c2| && SearchQuery(c1, d1) == SearchQuery(c2, d2)
    ensures c1 == c2 && d1 == d2
  {
    var q := SearchQuery(c1, d1);
    assert c1 == q[|QueryPrefix|..|QueryPrefix| + |c1|];
    assert d1 == q[|QueryPrefix| + |c1| + |QueryJoin|..];
  }

  /** Without the length, it does not: the names are not delimited, so a
      company name holding " to " can give the same query as another pair. */
  lemma QueryAmbiguous()
    ensures SearchQuery("A to B", "C") == SearchQuery("A", "B to C")
  {
  }

  /** What `fetch_gorilla_data` returns, and the error it displays. */
  datatype Fetched = Fetched(data: string, error: Option<string>)

  /** `fetch_gorilla_data` (churnAnalysis.py:34-41): one query to the search
      API; when it raises, the error is shown and the result is empty. */
  function FetchData(search: string -> CallResult, company: string, competitor: string): (f: Fetched)
    ensures search(SearchQuery(company, competitor)).Returned? ==>
              f == Fetched(search(SearchQuery(company, competitor)).text, None)
    ensures search(SearchQuery(company, competitor)).Raised? ==>
              f.data == [] && f.error == Some(FetchErrorPrefix + search(SearchQuery(company, competitor)).message)
  {
    match search(SearchQuery(company, competitor))
    case Returned(response) => Fetched(response, None)
    case Raised(e) => Fetched([], Some(FetchErrorPrefix + e))
  }

  /** What `analyze_churn` returns, and the error it displays. */
  datatype Analyzed = Analyzed(analysis: string, error: Option<string>)

  /** `analyze_churn` (churnAnalysis.py:44-64): one completion request built
      from the data and the two names; the answer is stripped of surrounding
      whitespace; when the request raises, the error is shown and the result
      is empty. */
  function AnalyzeChurn(complete: (string, string, string) -> CallResult,
                        data: string, company: string, competitor: string): (a: Analyzed)
    ensures a.error.Some? <==> complete(data, company, competitor).Raised?
    ensures a.error.Some? ==> a.analysis == []
    ensures a.error.None? ==> a.analysis == Strip(complete(data, company, competitor).text)
    ensures complete(data, company, competitor).Raised? ==>
              a.error == Some(CompletionErrorPrefix + complete(data, company, competitor).message)
  {
    match complete(data, company, competitor)
    case Returned(text) => Analyzed(Strip(text), None)
    case Raised(e) => Analyzed([], Some(CompletionErrorPrefix + e))
  }

  /** How one click ends. */
  datatype Outcome =
    | KeysMissing                                        // :73-74
    | NoData(fetchError: Option<string>)                 // :94-95
    | NoAnalysis(completionError: Option<string>)        // :84 false
    | Charted(analysis: string, reasons: set<(string, nat)>)  // :85-93

  /** The error messages a click displays, in order: the key error alone;
      the search error if there was one, then "no data"; the completion error
      if there was one; nothing for a chart. */
  function Errors(o: Outcome): (errs: seq<string>)
    ensures errs == [] <==> o.Charted? || o == NoAnalysis(None)
    ensures o.KeysMissing? ==> errs == [KeysMissingMessage]
    ensures o.NoData? ==> && errs != [] && errs[|errs| - 1] == NoDataMessage
                          && (o.fetchError.Some? <==> |errs| == 2)
                          && (o.fetchError.Some? ==> errs[0] == o.fetchError.value)
                          && (o.fetchError.None? ==> |errs| == 1)
    ensures o.NoAnalysis? && o.completionError.Some? ==> errs == [o.completionError.value]
  {
    match o
    case KeysMissing => [KeysMissingMessage]
    case NoData(None) => [NoDataMessage]
    case NoData(Some(e)) => [e, NoDataMessage]
    case NoAnalysis(None) => []
    case NoAnalysis(Some(e)) => [e]
    case Charted(_, _) => []
  }

  /** One click of "Analyze Churn" (churnAnalysis.py:73-95). */
  function AnalyzeClicked(openaiKey: string, gorillaKey: string, company: string, competitor: string,
                          search: string -> CallResult,
                          complete: (string, string, string) -> CallResult): (o: Outcome)
    ensures o.KeysMissing? <==> openaiKey == [] || gorillaKey == []
    ensures o.NoData? <==> openaiKey != [] && gorillaKey != [] && FetchData(search, company, competitor).data == []
    ensures o.NoData? ==> o.fetchError == FetchData(search, company, competitor).error
    ensures o.NoAnalysis? ==>
              o.completionError == AnalyzeChurn(complete, FetchData(search, company, competitor).data, company, competitor).error
    ensures o.Charted? <==>
              && openaiKey != [] && gorillaKey != []
              && FetchData(search, company, competitor).data != []
              && AnalyzeChurn(complete, FetchData(search, company, competitor).data, company, competitor).analysis != []
    ensures o.Charted? ==>
              && o.analysis == AnalyzeChurn(complete, FetchData(search, company, competitor).data, company, competitor).analysis
              && o.reasons == ReasonCounts(o.analysis)
  {
    if openaiKey == [] || gorillaKey == [] then KeysMissing
    else
      var fetched := FetchData(search, company, competitor);
      if fetched.data == [] then NoData(fetched.error)
      else
        var analyzed := AnalyzeChurn(complete, fetched.data, company, competitor);
        if analyzed.analysis == [] then NoAnalysis(analyzed.error)
        else Charted(analyzed.analysis, ReasonCounts(analyzed.analysis))
  }

  /** With a key missing, neither client is called: the outcome is the same
      whatever the two clients would do, and only the key error is shown. */
  lemma KeysMissingMakesNoCall(openaiKey: string, gorillaKey: string, company: string, competitor: string,
                               search1: string -> CallResult, complete1: (string, string, string) -> CallResult,
                               search2: string -> CallResult, complete2: (string, string, string) -> CallResult)
    requires openaiKey == [] || gorillaKey == []
    ensures AnalyzeClicked(openaiKey, gorillaKey, company, competitor, search1, complete1)
         == AnalyzeClicked(openaiKey, gorillaKey, company, competitor, search2, complete2)
    ensures Errors(AnalyzeClicked(openaiKey, gorillaKey, company, competitor, search1, complete1)) == [KeysMissingMessage]
  {
  }

  /** The search client is asked one thing only, the query for the two names;
      the completion client only (data, company, competitor). */
  lemma OnlyTheseCalls(openaiKey: string, gorillaKey: string, company: string, competitor: string,
                       search1: string -> CallResult, complete1: (string, string, string) -> CallResult,
                       search2: string -> CallResult, complete2: (string, string, string) -> CallResult)
    requires search1(SearchQuery(company, competitor)) == search2(SearchQuery(company, competitor))
    requires forall d :: complete1(d, company, competitor) == complete2(d, company, competitor)
    ensures AnalyzeClicked(openaiKey, gorillaKey, company, competitor, search1, complete1)
         == AnalyzeClicked(openaiKey, gorillaKey, company, competitor, search2, complete2)
  {
  }

  /** When the search gives nothing back (or raises), the completion client is
      not called and "no data" is shown, after the search error if there was one. */
  lemma NoDataSkipsCompletion(openaiKey: string, gorillaKey: string, company: string, competitor: string,
                              search: string -> CallResult,
                              complete1: (string, string, string) -> CallResult,
                              complete2: (string, string, string) -> CallResult)
    requires openaiKey != [] && gorillaKey != []
    requires FetchData(search, company, competitor).data == []
    ensures AnalyzeClicked(openaiKey, gorillaKey, company, competitor, search, complete1)
         == AnalyzeClicked(openaiKey, gorillaKey, company, competitor, search, complete2)
    ensures Errors(AnalyzeClicked(openaiKey, gorillaKey, company, competitor, search, complete1))
            [|Errors(AnalyzeClicked(openaiKey, gorillaKey, company, competitor, search, complete1))| - 1]
         == NoDataMessage
  {
  }

  /** A completion that is only whitespace, like a failed one, ends the click
      before anything is extracted. */
  lemma BlankAnalysisNotCharted(openaiKey: string, gorillaKey: string, company: string, competitor: string,
                                search: string -> CallResult,
                                complete: (string, string, string) -> CallResult)
    requires openaiKey != [] && gorillaKey != []
    requires FetchData(search, company, competitor).data != []
    requires complete(FetchData(search, company, competitor).data, company, competitor).Returned?
    requires AllSpace(complete(FetchData(search, company, competitor).data, company, competitor).text)
    ensures AnalyzeClicked(openaiKey, gorillaKey, company, competitor, search, complete) == NoAnalysis(None)
  {
  }

  /** An exception from either client is shown to the user with its prefix:
      a failed search shows its error and then "no data"; a search that
      returns nothing shows "no data" alone; a failed completion on real data
      shows its error alone. */
  lemma ExceptionsShown(openaiKey: string, gorillaKey: string, company: string, competitor: string,
                        search: string -> CallResult,
                        complete: (string, string, string) -> CallResult)
    requires openaiKey != [] && gorillaKey != []
    ensures search(SearchQuery(company, competitor)).Raised? ==>
              Errors(AnalyzeClicked(openaiKey, gorillaKey, company, competitor, search, complete))
              == [FetchErrorPrefix + search(SearchQuery(company, competitor)).message, NoDataMessage]
    ensures search(SearchQuery(company, competitor)) == Returned([]) ==>
              Errors(AnalyzeClicked(openaiKey, gorillaKey, company, competitor, search, complete)) == [NoDataMessage]
    ensures FetchData(search, company, competitor).data != []
            && complete(FetchData(search, company, competitor).data, company, competitor).Raised? ==>
              Errors(AnalyzeClicked(openaiKey, gorillaKey, company, competitor, search, complete))
              == [CompletionErrorPrefix + complete(FetchData(search, company, competitor).data, company, competitor).message]
  {
  }

  /** A charted click draws only labels found in the analysis, each once,
      with a positive count. */
  lemma ChartedReasons(openaiKey: string, gorillaKey: string, company: string, competitor: string,
                       search: string -> CallResult,
                       complete: (string, string, string) -> CallResult)
    requires AnalyzeClicked(openaiKey, gorillaKey, company, competitor, search, complete).Charted?
    ensures var o := AnalyzeClicked(openaiKey, gorillaKey, company, competitor, search, complete);
            forall r :: r in o.reasons ==> r.0 in ExtractLabels(o.analysis) && r.1 >= 1
    ensures var o := AnalyzeClicked(openaiKey, gorillaKey, company, competitor, search, complete);
            forall a, b :: a in o.reasons && b in o.reasons && a.0 == b.0 ==> a == b
  {
    var o := AnalyzeClicked(openaiKey, gorillaKey, company, competitor, search, complete);
    ReasonCountsSpec(o.analysis);
    CountsPositive(o.analysis);
  }
}
