/**
  The churn-reason extraction of churnAnalysis.py:
    `re.findall(r"- (.*?): \d+", analysis)` followed by
    `[(reason, analysis.count(reason)) for reason in set(churn_reasons)]`.
  The scan is written directly for this one pattern: a leftmost match is
  looked for at each position; within a match the group `.*?` is as short as
  possible (and never crosses a newline) and `\d+` takes every digit; the
  search resumes where the match ended, so matches do not overlap.
 */
module ReasonExtraction {
  import opened Wrappers
  import opened PyText

  /** `s[p..e]` is SOME match of the pattern whose group has length `k`:
      "- ", then `k` non-newline characters, then ": ", then digits up to `e`. */
  ghost predicate PatternAt(s: string, p: nat, k: nat, e: nat) {
    && p + k + 4 < e <= |s|
    && s[p] == '-' && s[p + 1] == ' '
    && NewlineFree(s, p + 2, p + 2 + k)
    && s[p + 2 + k] == ':' && s[p + 3 + k] == ' '
    && (forall i :: p + 4 + k <= i < e ==> IsDigit(s[i]))
  }

  /** The match Python's engine picks at `p`: the shortest group, then the
      longest run of digits. */
  ghost predicate ChosenAt(s: string, p: nat, k: nat, e: nat) {
    && PatternAt(s, p, k, e)
    && (forall k': nat, e': nat :: k' < k ==> !PatternAt(s, p, k', e'))
    && (forall e': nat :: e < e' ==> !PatternAt(s, p, k, e'))
  }

  /** No match of the pattern starts anywhere in `[i, j)`. */
  ghost predicate NoMatchBetween(s: string, i: nat, j: nat) {
    forall p: nat, k: nat, e: nat :: i <= p < j ==> !PatternAt(s, p, k, e)
  }

  /** The group text of a match at `p` with group length `k`. */
  function Group(s: string, p: nat, k: nat): string
    requires p + 2 + k <= |s|
  {
    s[p + 2..p + 2 + k]
  }

  /** ": " followed by a digit starts at `j`: where the lazy group may stop. */
  predicate SeparatorAt(s: string, j: nat) {
    j + 2 < |s| && s[j] == ':' && s[j + 1] == ' ' && IsDigit(s[j + 2])
  }

  /** `s[j..m]` lies within `s` and holds no newline. */
  ghost predicate NewlineFree(s: string, j: nat, m: nat) {
    m <= |s| && forall i :: j <= i < m ==> s[i] != '\n'
  }

  /** Where the lazy group started at `j` ends: the first separator reached
      from `j` without crossing a newline. */
  function LabelEnd(s: string, j: nat): (r: Option<nat>)
    ensures r.Some? ==> && j <= r.value && SeparatorAt(s, r.value)
                        && NewlineFree(s, j, r.value) && forall i :: j <= i < r.value ==> !SeparatorAt(s, i)
    ensures r.None? ==> forall m :: j <= m && NewlineFree(s, j, m) ==> !SeparatorAt(s, m)
    decreases |s| - j
  {
    if SeparatorAt(s, j) then Some(j)
    else if j < |s| && s[j] != '\n' then
      var r := LabelEnd(s, j + 1);
      assert r.None? ==> forall m :: j + 1 <= m && NewlineFree(s, j, m) ==> NewlineFree(s, j + 1, m);
      r
    else None
  }

  /** The length of the run of digits that starts at `i`. */
  function DigitRun(s: string, i: nat): (n: nat)
    requires i <= |s|
    ensures i + n <= |s|
    ensures forall d :: i <= d < i + n ==> IsDigit(s[d])
    ensures i + n == |s| || !IsDigit(s[i + n])
    decreases |s| - i
  {
    if i < |s| && IsDigit(s[i]) then 1 + DigitRun(s, i + 1) else 0
  }

  /** Every match of the pattern at `p` stops its group at a separator
      reached without a newline. */
  lemma PatternHasSeparator(s: string, p: nat)
    ensures forall k: nat, e: nat :: PatternAt(s, p, k, e) ==>
              NewlineFree(s, p + 2, p + 2 + k) && SeparatorAt(s, p + 2 + k)
  {
  }

  /** One match found by the scan: its group and where the scan resumes. */
  datatype Match = Match(reason: string, next: nat)

  /** The match of the pattern that starts exactly at `p`, if any; the scan
      resumes after `p`. */
  function MatchAt(s: string, p: nat): (r: Option<Match>)
    ensures r.Some? ==> p < r.value.next
  {
    if p + 2 <= |s| && s[p] == '-' && s[p + 1] == ' ' then
      match LabelEnd(s, p + 2)
      case Some(j) => Some(Match(s[p + 2..j], j + 2 + DigitRun(s, j + 2)))
      case None => None
    else None
  }

  /** The match found at `p` is the one the engine picks there, and there is
      none exactly when no match of any shape starts at `p`. */
  lemma MatchAtChosen(s: string, p: nat)
    ensures MatchAt(s, p).Some? ==> && ChosenAt(s, p, |MatchAt(s, p).value.reason|, MatchAt(s, p).value.next)
                                    && MatchAt(s, p).value.reason == Group(s, p, |MatchAt(s, p).value.reason|)
    ensures MatchAt(s, p).None? ==> forall k: nat, e: nat :: !PatternAt(s, p, k, e)
  {
    PatternHasSeparator(s, p);
  }

  /** `re.findall` of the pattern on `s` from position `i`: the groups of the
      leftmost non-overlapping matches, in order. */
  function Scan(s: string, i: nat): (labels: seq<string>)
    decreases |s| - i
  {
    if i >= |s| then []
    else match MatchAt(s, i)
      case Some(m) => [m.reason] + Scan(s, m.next)
      case None => Scan(s, i + 1)
  }

  /** `re.findall(r"- (.*?): \d+", analysis)` (churnAnalysis.py:89). */
  function ExtractLabels(analysis: string): seq<string> {
    Scan(analysis, 0)
  }

  /** `reason_counts` (churnAnalysis.py:90): each distinct label with the
      number of times it occurs in the whole analysis. The list comprehension
      over `set(...)` has no specified order; it is kept as a set. */
  function ReasonCounts(analysis: string): set<(string, nat)> {
    var labels := ExtractLabels(analysis);
    set l | l in labels :: (l, CountOcc(analysis, l))
  }

  // ----- The scan agrees with the pattern's leftmost, lazy, non-overlapping semantics

  /** `L` is the group of the match Python picks at `p`, which ends at `e`. */
  ghost predicate ChosenLabel(s: string, L: string, p: nat, e: nat) {
    ChosenAt(s, p, |L|, e) && L == Group(s, p, |L|)
  }

  /** At one position the engine's choice is unique. */
  lemma ChosenUnique(s: string, p: nat, k1: nat, e1: nat, k2: nat, e2: nat)
    requires ChosenAt(s, p, k1, e1) && ChosenAt(s, p, k2, e2)
    ensures k1 == k2 && e1 == e2
  {
    assert !(k1 < k2) && !(k2 < k1);
    assert !(e1 < e2) && !(e2 < e1);
  }

  /** Every label the scan returns from `i` on is the group of a match the
      engine picks at some position at or after `i`. */
  lemma {:induction false} ScanSound(s: string, i: nat)
    ensures forall L :: L in Scan(s, i) ==> exists p: nat, e: nat :: i <= p && ChosenLabel(s, L, p, e)
    decreases |s| - i
  {
    if i < |s| {
      match MatchAt(s, i)
      case Some(m) =>
        MatchAtChosen(s, i);
        ScanSound(s, m.next);
        assert ChosenLabel(s, m.reason, i, m.next);
      case None =>
        ScanSound(s, i + 1);
    }
  }

  /** The scan from `i` is empty exactly when no match starts at or after `i`. */
  lemma {:induction false} ScanEmpty(s: string, i: nat)
    ensures Scan(s, i) == [] <==> forall p: nat, k: nat, e: nat :: i <= p ==> !PatternAt(s, p, k, e)
    decreases |s| - i
  {
    if i >= |s| {
    } else {
      MatchAtChosen(s, i);
      match MatchAt(s, i)
      case Some(m) =>
        assert PatternAt(s, i, |m.reason|, m.next);
      case None =>
        ScanEmpty(s, i + 1);
    }
  }

  lemma NoMatchAtNone(s: string, i: nat)
    requires forall k: nat, e: nat :: !PatternAt(s, i, k, e)
    ensures MatchAt(s, i).None?
  {
    MatchAtChosen(s, i);
  }

  /** When the leftmost match at or after `i` starts at `p`, the scan returns
      its group and then resumes where that match ends. */
  lemma ScanStep(s: string, i: nat, p: nat, k: nat, e: nat)
    requires i <= p && NoMatchBetween(s, i, p) && ChosenAt(s, p, k, e)
    ensures Scan(s, i) == [Group(s, p, k)] + Scan(s, e)
  {
    assert PatternAt(s, p, k, e);
    NoMatchUnmatched(s, i, p);
    ScanSkip(s, i, p);
    ScanAtMatch(s, p, k, e);
  }

  /** The scan finds nothing at any position of `[i, p)`. */
  ghost predicate Unmatched(s: string, i: nat, p: nat) {
    forall j: nat :: i <= j < p ==> MatchAt(s, j).None?
  }

  /** No match starting in a range means no position there yields one. */
  lemma NoMatchUnmatched(s: string, i: nat, p: nat)
    requires NoMatchBetween(s, i, p)
    ensures Unmatched(s, i, p)
  {
    forall j: nat | i <= j < p
      ensures MatchAt(s, j).None?
    {
      NoMatchAtNone(s, j);
    }
  }

  /** Across a range where nothing matches the scan reads nothing. */
  lemma {:induction false} ScanSkip(s: string, i: nat, p: nat)
    requires i <= p <= |s| && Unmatched(s, i, p)
    ensures Scan(s, i) == Scan(s, p)
    decreases p - i
  {
    if i < p {
      ScanPastNoMatch(s, i);
      ScanSkip(s, i + 1, p);
    }
  }

  /** At the position of a chosen match the scan returns its group. */
  lemma ScanAtMatch(s: string, p: nat, k: nat, e: nat)
    requires ChosenAt(s, p, k, e)
    ensures Scan(s, p) == [Group(s, p, k)] + Scan(s, e)
  {
    assert PatternAt(s, p, k, e);
    var r := MatchAt(s, p);
    MatchAtChosen(s, p);
    assert r.Some?;
    ChosenUnique(s, p, k, e, |r.value.reason|, r.value.next);
  }

  /** Where no match starts the scan moves on one character. */
  lemma ScanPastNoMatch(s: string, i: nat)
    requires i < |s| && MatchAt(s, i).None?
    ensures Scan(s, i) == Scan(s, i + 1)
  {
  }

  // ----- Properties of the extracted labels (churnAnalysis.py:89)

  ghost predicate AllDigits(d: string) {
    forall i :: 0 <= i < |d| ==> IsDigit(d[i])
  }

  /** The text of a chosen match is "- " + its group + ": " + its digits. */
  lemma ChosenLabelText(s: string, L: string, p: nat, e: nat)
    requires ChosenLabel(s, L, p, e)
    ensures p + 4 + |L| < e <= |s|
    ensures s[p..e] == "- " + L + ": " + s[p + 4 + |L|..e]
  {
    var k := |L|;
    assert s[p..p + 2] == "- ";
    assert s[p + 2 + k..p + 4 + k] == ": ";
    assert s[p..e] == s[p..p + 2] + s[p + 2..p + 2 + k] + s[p + 2 + k..p + 4 + k] + s[p + 4 + k..e];
  }

  /** Every extracted label `L` appears in the analysis inside a line piece
      `"- " + L + ": " + d` with `d` a non-empty run of digits. */
  lemma LabelsAreMatched(analysis: string, L: string)
    requires L in ExtractLabels(analysis)
    ensures exists p: nat, d: string :: d != [] && AllDigits(d) && OccursAt(analysis, "- " + L + ": " + d, p)
  {
    ScanSound(analysis, 0);
    var p: nat, e: nat :| ChosenLabel(analysis, L, p, e);
    ChosenLabelText(analysis, L, p, e);
    var d := analysis[p + 4 + |L|..e];
    assert AllDigits(d);
    assert OccursAt(analysis, "- " + L + ": " + d, p);
  }

  /** The group of a chosen match holds no newline and, being as short as
      possible, no ": " followed by a digit. */
  lemma ChosenGroupShape(s: string, p: nat, k: nat, e: nat)
    requires ChosenAt(s, p, k, e)
    ensures NewlineFree(Group(s, p, k), 0, k)
    ensures forall j: nat :: !SeparatorAt(Group(s, p, k), j)
  {
    var g := Group(s, p, k);
    forall j: nat | j + 2 < k
      ensures !SeparatorAt(g, j)
    {
      var e': nat := p + 5 + j;
      assert g[j] == s[p + 2 + j] && g[j + 1] == s[p + 3 + j] && g[j + 2] == s[p + 4 + j];
      assert SeparatorAt(g, j) ==> PatternAt(s, p, j, e');
    }
  }

  /** No extracted label spans a newline, and, the group being lazy, none
      contains ": " followed by a digit. */
  lemma LabelShape(analysis: string, L: string)
    requires L in ExtractLabels(analysis)
    ensures NewlineFree(L, 0, |L|)
    ensures forall j: nat :: !SeparatorAt(L, j)
  {
    ScanSound(analysis, 0);
    var p: nat, e: nat :| ChosenLabel(analysis, L, p, e);
    ChosenGroupShape(analysis, p, |L|, e);
  }

  /** The label list, and so the table handed to the chart, is empty exactly
      when the analysis holds no piece "- X: <digits>" with X free of newlines. */
  lemma NoPatternNoLabels(analysis: string)
    ensures ExtractLabels(analysis) == [] <==>
            forall p: nat, k: nat, e: nat :: !PatternAt(analysis, p, k, e)
    ensures ReasonCounts(analysis) == {} <==>
            forall p: nat, k: nat, e: nat :: !PatternAt(analysis, p, k, e)
  {
    ScanEmpty(analysis, 0);
    var labels := ExtractLabels(analysis);
    if labels != [] {
      assert (labels[0], CountOcc(analysis, labels[0])) in ReasonCounts(analysis);
    }
  }

  // ----- Properties of the reason table (churnAnalysis.py:90)

  /** The table holds each extracted label exactly once, paired with its
      number of occurrences in the whole analysis. */
  lemma ReasonCountsSpec(analysis: string)
    ensures forall r :: r in ReasonCounts(analysis) ==>
              r.0 in ExtractLabels(analysis) && r.1 == CountOcc(analysis, r.0)
    ensures forall L :: L in ExtractLabels(analysis) ==> (L, CountOcc(analysis, L)) in ReasonCounts(analysis)
    ensures forall a, b :: a in ReasonCounts(analysis) && b in ReasonCounts(analysis) && a.0 == b.0 ==> a == b
  {
  }

  /** Every count is at least one: each label occurs in its own match. */
  lemma CountsPositive(analysis: string)
    ensures forall r :: r in ReasonCounts(analysis) ==> r.1 >= 1
  {
    forall r | r in ReasonCounts(analysis) ensures r.1 >= 1 {
      var L := r.0;
      ScanSound(analysis, 0);
      var p: nat, e: nat :| ChosenLabel(analysis, L, p, e);
      assert OccursAt(analysis, L, p + 2);
      CountPositiveIffOccurs(analysis, L);
    }
  }

  // ----- Worked cases

  lemma TableOfTwo(s: string, a: string, b: string)
    requires ExtractLabels(s) == [a, b]
    ensures ReasonCounts(s) == {(a, CountOcc(s, a)), (b, CountOcc(s, b))}
  {
  }

  /** The characters of `"- A: " + d1 + "\n- B: " + d2`, position by position. */
  lemma TwoReasonsText(d1: string, d2: string, s: string)
    requires s == "- A: " + d1 + "\n- B: " + d2
    ensures |s| == 11 + |d1| + |d2|
    ensures s[0] == '-' && s[1] == ' ' && s[2] == 'A' && s[3] == ':' && s[4] == ' '
    ensures forall i :: 5 <= i < 5 + |d1| ==> s[i] == d1[i - 5]
    ensures s[5 + |d1|] == '\n'
    ensures s[6 + |d1|] == '-' && s[7 + |d1|] == ' ' && s[8 + |d1|] == 'B'
    ensures s[9 + |d1|] == ':' && s[10 + |d1|] == ' '
    ensures forall i :: 11 + |d1| <= i < |s| ==> s[i] == d2[i - 11 - |d1|]
  {
  }

  lemma TwoReasonsFirstMatch(d1: string, d2: string, s: string)
    requires d1 != [] && AllDigits(d1)
    requires s == "- A: " + d1 + "\n- B: " + d2
    ensures ChosenAt(s, 0, 1, 5 + |d1|) && Group(s, 0, 1) == "A"
  {
    TwoReasonsText(d1, d2, s);
    assert PatternAt(s, 0, 1, 5 + |d1|);
    assert Group(s, 0, 1) == [s[2]];
  }

  lemma TwoReasonsSecondMatch(d1: string, d2: string, s: string)
    requires d2 != [] && AllDigits(d2)
    requires s == "- A: " + d1 + "\n- B: " + d2
    ensures NoMatchBetween(s, 5 + |d1|, 6 + |d1|)
    ensures ChosenAt(s, 6 + |d1|, 1, |s|) && Group(s, 6 + |d1|, 1) == "B"
  {
    TwoReasonsText(d1, d2, s);
    var p: nat := 6 + |d1|;
    assert PatternAt(s, p, 1, |s|);
    assert Group(s, p, 1) == [s[8 + |d1|]];
  }

  lemma TwoReasonsCounts(d1: string, d2: string, s: string)
    requires AllDigits(d1) && AllDigits(d2)
    requires s == "- A: " + d1 + "\n- B: " + d2
    ensures CountOcc(s, "A") == 1 && CountOcc(s, "B") == 1
  {
    TwoReasonsText(d1, d2, s);
    assert forall k :: 5 <= k < 5 + |d1| ==> IsDigit(s[k]);
    assert forall k :: 11 + |d1| <= k < |s| ==> IsDigit(s[k]);
    CountSingleChar(s, 'A', 0);
    CharCountSkip(s, 'A', 3, |s|);
    assert CharCount(s, 'A', 2) == 1 + CharCount(s, 'A', 3);
    CharCountSkip(s, 'A', 0, 2);
    CountSingleChar(s, 'B', 0);
    CharCountSkip(s, 'B', 0, 8 + |d1|);
    CharCountSkip(s, 'B', 9 + |d1|, |s|);
    assert CharCount(s, 'B', 8 + |d1|) == 1 + CharCount(s, 'B', 9 + |d1|);
  }

  /** The scan of the two reason lines meets the two matches and nothing else. */
  lemma TwoReasonsLabels(d1: string, d2: string, s: string)
    requires d1 != [] && d2 != [] && AllDigits(d1) && AllDigits(d2)
    requires s == "- A: " + d1 + "\n- B: " + d2
    ensures ExtractLabels(s) == ["A", "B"]
  {
    TwoReasonsFirstMatch(d1, d2, s);
    TwoReasonsSecondMatch(d1, d2, s);
    ScanTwoMatches(s, 5 + |d1|, 6 + |d1|, 1, 1);
  }

  /** A text that is a first match, a match-free gap, and a second match
      running to its end yields exactly those two groups. */
  lemma ScanTwoMatches(s: string, e1: nat, p2: nat, k1: nat, k2: nat)
    requires ChosenAt(s, 0, k1, e1) && e1 <= p2
    requires NoMatchBetween(s, e1, p2) && ChosenAt(s, p2, k2, |s|)
    ensures ExtractLabels(s) == [Group(s, 0, k1), Group(s, p2, k2)]
  {
    assert NoMatchBetween(s, 0, 0);
    ScanStep(s, 0, 0, k1, e1);
    ScanStep(s, e1, p2, k2, |s|);
  }

  /** Two reason lines give both labels, whatever digits follow them; each
      label is counted by its occurrences in the text, once here, and not by
      the number written after it. */
  lemma ExampleTwoReasons(d1: string, d2: string, s: string)
    requires d1 != [] && d2 != [] && AllDigits(d1) && AllDigits(d2)
    requires s == "- A: " + d1 + "\n- B: " + d2
    ensures ExtractLabels(s) == ["A", "B"]
    ensures ReasonCounts(s) == {("A", 1), ("B", 1)}
  {
    TwoReasonsLabels(d1, d2, s);
    TwoReasonsCounts(d1, d2, s);
    TableOfTwo(s, "A", "B");
  }

  /** The group may be empty; the empty label is then counted as Python
      counts the empty string, once more than the length of the text. */
  lemma ExampleEmptyLabel(s: string)
    requires s == "- : 3"
    ensures ExtractLabels(s) == [""]
    ensures ReasonCounts(s) == {("", 6)}
  {
    assert LabelEnd(s, 2) == Some(2);
    assert DigitRun(s, 4) == 1;
    assert s[2..2] == "";
    assert MatchAt(s, 0) == Some(Match("", 5));
    assert Scan(s, 0) == [""] + Scan(s, 5);
    assert ExtractLabels(s) == [""];
    assert CountOcc(s, "") == 6;
    assert ReasonCounts(s) == set l | l in [""] :: (l, CountOcc(s, l));
  }

  /** The group is lazy: it stops at the first ": " followed by a digit. */
  lemma ExampleLazyGroup(s: string)
    requires s == "- x: 1: 2"
    ensures ExtractLabels(s) == ["x"]
  {
    assert LabelEnd(s, 3) == Some(3);
    assert LabelEnd(s, 2) == Some(3);
    assert DigitRun(s, 5) == 1;
    assert s[2..3] == "x";
    assert MatchAt(s, 0) == Some(Match("x", 6));
    assert MatchAt(s, 6) == None;
    assert MatchAt(s, 7) == None;
    assert MatchAt(s, 8) == None;
    assert Scan(s, 8) == [];
    assert Scan(s, 6) == Scan(s, 8);
    assert Scan(s, 0) == ["x"] + Scan(s, 6);
  }
}
