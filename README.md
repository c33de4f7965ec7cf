# Churn analysis: reason extraction and click flow, in Dafny

churnAnalysis.py is a Streamlit page. The user enters two API keys, a
company and a competitor. The page asks a search API ("Gorilla") about
churn from the company to the competitor. It sends the answer to a text
completion API (OpenAI) for a summary. It then pulls "reason" labels out
of the summary and charts how often each one occurs.

This project models the parts of that script that are pure logic:

- `ReasonExtraction` (extraction.dfy) is the churn-reason extraction at
  lines 89-90. `Scan` and `ExtractLabels` are `re.findall(r"- (.*?): \d+", analysis)`,
  written out for this one pattern. At each position the scan looks for a
  match. Inside a match the group `.*?` is as short as possible and never
  crosses a newline, and `\d+` takes every digit that follows. The next
  search starts where the match ended. `ReasonCounts` pairs each distinct
  label with `analysis.count(label)`. The lemmas prove that the scan agrees
  with a declarative statement of the pattern (`PatternAt`, `ChosenAt`):
  leftmost, lazy, non-overlapping.
- `PyText` (pytext.dfy) holds the Python `str` built-ins the extraction and
  the flow depend on, with Python's semantics: `str.count` (non-overlapping,
  left to right, `len(s) + 1` for the empty string), `str.strip()` with
  Python's `isspace` characters, and the digit class, restricted to ASCII.
- `ChurnFlow` (flow.dfy) holds the query string of `fetch_gorilla_data`,
  the two client wrappers with their exception fallbacks (`[]` and `""`),
  and the guard chain of one click as a pure function returning an
  `Outcome`. The two network clients are function parameters. "No call is
  made" is stated as "the outcome does not depend on that parameter".
- `Wrappers` (wrappers.dfy) holds an `Option` datatype.

The pattern has no line anchor, so a match can also start in the middle of
a line (`"see - A: 3"` yields `A`).

## Model

| member | source | states |
|---|---|---|
| `ReasonExtraction.Scan` | churnAnalysis.py:89 | `re.findall` of the pattern from a position; defined by its body, see `ScanSound`, `ScanEmpty` and `ScanStep` |
| `ReasonExtraction.ExtractLabels` | churnAnalysis.py:89 | `churn_reasons`, the scan of the whole analysis; defined by its body, see `LabelsAreMatched`, `LabelShape` and `NoPatternNoLabels` |
| `ReasonExtraction.ReasonCounts` | churnAnalysis.py:90 | `reason_counts` as a set of pairs; defined by its body, see `ReasonCountsSpec` and `CountsPositive` |
| `ReasonExtraction.LabelEnd` | churnAnalysis.py:89 | the lazy group stops at the first `": "` + digit reachable without a newline; `None` exactly when none is reachable |
| `ReasonExtraction.DigitRun` | churnAnalysis.py:89 | `\d+` is greedy: the run ends at the end of the text or at a non-digit |
| `ReasonExtraction.MatchAt` | churnAnalysis.py:89 | a match found at a position ends after it, so the scan always moves forward |
| `ReasonExtraction.MatchAtChosen` | churnAnalysis.py:89 | the match `MatchAt` finds at a position is the one the engine picks: it is a pattern match, no shorter group matches, and no longer digit run does; `None` exactly when no match of any shape starts there |
| `ReasonExtraction.ChosenUnique` | churnAnalysis.py:89 | at one position the chosen match (group length, end) is unique |
| `ReasonExtraction.ScanSound` | churnAnalysis.py:89 | every label `findall` returns from `i` on is the group of a chosen match at or after `i` |
| `ReasonExtraction.ScanEmpty` | churnAnalysis.py:89 | the scan from `i` is empty if and only if no match of the pattern starts at or after `i` |
| `ReasonExtraction.ScanStep` | churnAnalysis.py:89 | when the leftmost match from `i` starts at `p` and ends at `e`, the scan gives its group and then resumes at `e` (leftmost, non-overlapping) |
| `ReasonExtraction.ScanSkip` | churnAnalysis.py:89 | across positions where no match starts, the scan returns nothing |
| `ReasonExtraction.ScanTwoMatches` | churnAnalysis.py:89 | a chosen match at the start, a match-free gap, and a chosen match running to the end give exactly those two groups |
| `ReasonExtraction.ChosenLabelText` | churnAnalysis.py:89 | the text of a chosen match is `"- " + label + ": " + digits` |
| `ReasonExtraction.LabelsAreMatched` | churnAnalysis.py:89 | every extracted label `L` has `"- " + L + ": " + d` as a substring of the analysis, with `d` a non-empty digit string |
| `ReasonExtraction.ChosenGroupShape` | churnAnalysis.py:89 | the group of a chosen match holds no newline and no `": "` followed by a digit |
| `ReasonExtraction.LabelShape` | churnAnalysis.py:89 | no extracted label holds a newline, and none holds `": "` followed by a digit |
| `ReasonExtraction.NoPatternNoLabels` | churnAnalysis.py:89-93 | the label list, and also the reason table handed to the chart, is empty if and only if the analysis has no `"- X: <digits>"` piece with `X` newline-free |
| `ReasonExtraction.ReasonCountsSpec` | churnAnalysis.py:90 | the table's reasons are exactly the extracted labels, pairwise distinct, each with the number of non-overlapping occurrences of the label in the whole analysis |
| `ReasonExtraction.CountsPositive` | churnAnalysis.py:89-90 | every count is at least 1 |
| `ReasonExtraction.ExampleTwoReasons` | churnAnalysis.py:89-90 | for all non-empty digit strings `d1` and `d2`, `"- A: " + d1 + "\n- B: " + d2` gives labels `A`, `B`, each counted 1, whatever digits follow them |
| `ReasonExtraction.ExampleEmptyLabel` | churnAnalysis.py:89-90 | `"- : 3"` gives the empty label, counted `len + 1` = 6 |
| `ReasonExtraction.ExampleLazyGroup` | churnAnalysis.py:89 | `"- x: 1: 2"` gives `x` only: the group is lazy and matches do not overlap |
| `PyText.IsSpace` | churnAnalysis.py:61 | the characters `str.isspace` accepts, which `strip()` removes; defined by its body |
| `PyText.IsDigit` | churnAnalysis.py:89 | the `\d` class, restricted to ASCII digits (see Left out); defined by its body |
| `PyText.CountOcc` | churnAnalysis.py:90 | `analysis.count(reason)`: `len + 1` for the empty string, otherwise `CountFrom` from 0; see `CountIsMaximum` |
| `PyText.CountFrom` | churnAnalysis.py:90 | left-to-right non-overlapping count from a position; defined by its body, see `CountFromStep` and `CountIsMaximum` |
| `PyText.CountFromStep` | churnAnalysis.py:90 | when the first occurrence at or after `i` is at `p`, the count is 1 plus the count from just after it |
| `PyText.CountIsMaximum` | churnAnalysis.py:90 | for a non-empty substring the count is the largest number of pairwise non-overlapping occurrences: a family that large exists and none is larger |
| `PyText.CountPositiveIffOccurs` | churnAnalysis.py:90 | `str.count` is at least 1 exactly when the substring occurs (always for the empty string) |
| `PyText.CountNonOverlapping` | churnAnalysis.py:90 | the occurrences `str.count` counts fit side by side in the text: count times length is at most the text's length |
| `PyText.CountSingleChar` | churnAnalysis.py:90 | for a one-character label, `str.count` is the number of positions holding that character |
| `PyText.Strip` | churnAnalysis.py:61 | `strip()` returns a slice of the text with only whitespace cut off each side; the result is empty exactly when the text is all whitespace, and otherwise starts and ends with a non-space |
| `ChurnFlow.SearchQuery` | churnAnalysis.py:36 | the query is the prefix `"churn reasons for "`, then the company, then `" to "`, then the competitor |
| `ChurnFlow.QueryDeterminesNames` | churnAnalysis.py:36 | given the company name's length, the query determines both names |
| `ChurnFlow.QueryAmbiguous` | churnAnalysis.py:36 | without it, different names can give the same query |
| `ChurnFlow.FetchData` | churnAnalysis.py:34-41 | the search client is sent the query; its answer is returned, or on an exception the error is shown and the result is empty |
| `ChurnFlow.AnalyzeChurn` | churnAnalysis.py:44-64 | the completion client gets the data and both names; its text is stripped; on an exception the result is `""` and the error shown is `"Error using OpenAI: "` followed by the exception's text |
| `ChurnFlow.Errors` | churnAnalysis.py:73-95 | a click shows no error exactly when it charts, or when the completion was blank without an exception; a key error is shown alone; "no data" is shown last, after the search error when there is one; a completion error is shown alone |
| `ChurnFlow.ExceptionsShown` | churnAnalysis.py:39-95 | with both keys set, a raised search shows `"Error fetching Gorilla data: "` + its message and then "no data"; an empty search answer shows "no data" alone; a raised completion on non-empty data shows `"Error using OpenAI: "` + its message alone |
| `ChurnFlow.AnalyzeClicked` | churnAnalysis.py:73-95 | key error iff a key is empty; "no data" iff both keys are set and the fetch gave nothing; charted iff both keys, the data and the analysis are non-empty, and then the chart is `ReasonCounts` of the analysis; when the click stops at the analysis, the completion error (if any) is the one carried |
| `ChurnFlow.KeysMissingMakesNoCall` | churnAnalysis.py:73-74 | with a key missing, the outcome does not depend on either client, and only the key error is shown |
| `ChurnFlow.OnlyTheseCalls` | churnAnalysis.py:36-37 | the outcome depends on the search client only through the query for the two names, and on the completion client only through calls with those names |
| `ChurnFlow.NoDataSkipsCompletion` | churnAnalysis.py:80-95 | with no data (including the `[]` fallback) the completion client is not called and "no data" is the last error shown |
| `ChurnFlow.BlankAnalysisNotCharted` | churnAnalysis.py:61-84 | a whitespace-only completion strips to `""` and ends the click with nothing more shown |
| `ChurnFlow.ChartedReasons` | churnAnalysis.py:88-93 | a charted click draws only extracted labels, each once, with a count of at least 1 |

## Left out

- The Streamlit page itself is not modelled: the title, sidebar inputs, `st.write`, `st.subheader` and the button at lines 17-25 and 72. `AnalyzeClicked` is the body run when the button is pressed. `Errors` lists what `st.error` shows.
- The client set-up at lines 28-31 is not modelled. The clients are only used after both keys are checked.
- The network calls at lines 37 and 56-61 are left out because they are foreign code. Each is a parameter returning `Returned(text)` or `Raised(message)`, where `message` stands for `str(e)`. A malformed completion response raises inside the same `try`, so it is a `Raised` too.
- The prompt template at lines 46-55 is not modelled. The completion parameter receives the data, company and competitor it is built from.
- `FetchData`: the Gorilla response's type is not visible. It is modelled as text, truthy exactly when non-empty, like the `[]` fallback.
- `PyText.IsDigit`: only the ASCII digits are accepted. Python's `\d` on `str` patterns also matches the other Unicode decimal digits, which the model does not.
- `ReasonCounts`: the result is a set. The order of the Python list follows `set` iteration order, which is unspecified. Its reasons are distinct, so nothing else is lost.
- The NLTK downloads and the unused `stop_words` at lines 12-14 are left out because they have no effect on any output.
- The DataFrame and bar chart at lines 67-69 are library rendering, left out. `Charted` carries the pairs that are charted.
- Regular expressions in general are not modelled. Only this one fixed pattern is.
