/**
  The few Python `str` built-ins the churn-reason extraction relies on,
  written out with Python's own semantics: `str.isspace` and `str.strip()`
  (used on the completion text), the `\d` character class of the pattern,
  and `str.count` (used to size every reason).
 */
module PyText {

  /** The characters Python's `str.isspace` accepts, and so those that
      `str.strip()` with no argument removes. */
  predicate IsSpace(c: char) {
    var n := c as int;
    (0x09 <= n <= 0x0D) || (0x1C <= n <= 0x20) || n == 0x85 || n == 0xA0
    || n == 0x1680 || (0x2000 <= n <= 0x200A) || n == 0x2028 || n == 0x2029
    || n == 0x202F || n == 0x205F || n == 0x3000
  }

  /** The `\d` class of the pattern, restricted to the ASCII digits. */
  predicate IsDigit(c: char) {
    '0' <= c <= '9'
  }

  /** Every character of `s[i..j]` is whitespace. */
  ghost predicate SpaceBetween(s: string, i: nat, j: nat) {
    j <= |s| && forall k :: i <= k < j ==> IsSpace(s[k])
  }

  ghost predicate AllSpace(t: string) {
    SpaceBetween(t, 0, |t|)
  }

  /** The first non-whitespace position at or after `i` (or `|s|`). */
  function FirstNonSpace(s: string, i: nat): (n: nat)
    requires i <= |s|
    ensures i <= n <= |s|
    ensures SpaceBetween(s, i, n)
    ensures n == |s| || !IsSpace(s[n])
    decreases |s| - i
  {
    if i < |s| && IsSpace(s[i]) then FirstNonSpace(s, i + 1) else i
  }

  /** The end of the text before the whitespace that ends `s[..j]`. */
  function LastNonSpaceEnd(s: string, j: nat): (n: nat)
    requires j <= |s|
    ensures n <= j
    ensures SpaceBetween(s, n, j)
    ensures n == 0 || !IsSpace(s[n - 1])
  {
    if j > 0 && IsSpace(s[j - 1]) then LastNonSpaceEnd(s, j - 1) else j
  }

  /** Python's `s.strip()`: `s` without its leading and trailing whitespace. */
  function Strip(s: string): (r: string)
    ensures r == [] <==> AllSpace(s)
    ensures r != [] ==> !IsSpace(r[0]) && !IsSpace(r[|r| - 1])
    ensures exists i :: 0 <= i <= |s| - |r| && r == s[i..i + |r|]
                        && SpaceBetween(s, 0, i) && SpaceBetween(s, i + |r|, |s|)
  {
    var a := FirstNonSpace(s, 0);
    if a == |s| then
      assert s[0..0] == [];
      []
    else
      var b := LastNonSpaceEnd(s, |s|);
      assert a < b by { assert !IsSpace(s[a]); }
      var r := s[a..b];
      assert r == s[a..a + |r|];
      r
  }

  ghost predicate OccursAt(s: string, sub: string, p: nat) {
    p + |sub| <= |s| && s[p..p + |sub|] == sub
  }

  ghost predicate Occurs(s: string, sub: string) {
    exists p: nat :: OccursAt(s, sub, p)
  }

  /** Python's `s.count(sub)`: the number of non-overlapping occurrences of
      `sub` in `s`, found left to right; `len(s) + 1` when `sub` is empty. */
  function CountOcc(s: string, sub: string): nat {
    if sub == [] then |s| + 1 else CountFrom(s, sub, 0)
  }

  /** Occurrences counted from position `i` on, resuming after each one found. */
  function CountFrom(s: string, sub: string, i: nat): nat
    requires sub != []
    decreases |s| - i
  {
    if i + |sub| > |s| then 0
    else if s[i..i + |sub|] == sub then 1 + CountFrom(s, sub, i + |sub|)
    else CountFrom(s, sub, i + 1)
  }

  lemma {:induction false} CountFromPositive(s: string, sub: string, i: nat)
    requires sub != []
    ensures CountFrom(s, sub, i) >= 1 <==> exists p: nat :: i <= p && OccursAt(s, sub, p)
    decreases |s| - i
  {
    if i + |sub| > |s| {
    } else if s[i..i + |sub|] == sub {
      assert OccursAt(s, sub, i);
    } else {
      CountFromPositive(s, sub, i + 1);
      if exists p: nat :: i <= p && OccursAt(s, sub, p) {
        var p: nat :| i <= p && OccursAt(s, sub, p);
        assert p != i;
        assert i + 1 <= p;
      }
    }
  }

  /** A string is counted at least once exactly when it occurs (the empty
      string always is). */
  lemma CountPositiveIffOccurs(s: string, sub: string)
    ensures CountOcc(s, sub) >= 1 <==> (sub == [] || Occurs(s, sub))
  {
    if sub == [] {
      assert OccursAt(s, sub, 0);
    } else {
      CountFromPositive(s, sub, 0);
    }
  }

  lemma {:induction false} CountFromBound(s: string, sub: string, i: nat)
    requires sub != [] && i <= |s|
    ensures CountFrom(s, sub, i) * |sub| <= |s| - i
    decreases |s| - i
  {
    if i + |sub| > |s| {
    } else if s[i..i + |sub|] == sub {
      CountFromBound(s, sub, i + |sub|);
    } else {
      CountFromBound(s, sub, i + 1);
    }
  }

  /** Occurrences are counted without overlap: they fit side by side in `s`. */
  lemma CountNonOverlapping(s: string, sub: string)
    requires sub != []
    ensures CountOcc(s, sub) * |sub| <= |s|
  {
    CountFromBound(s, sub, 0);
  }

  /** When the first occurrence at or after `i` is at `p`, it is counted
      and counting resumes just after it. */
  lemma {:induction false} CountFromStep(s: string, sub: string, i: nat, p: nat)
    requires sub != [] && i <= p && OccursAt(s, sub, p)
    requires forall q: nat :: i <= q < p ==> !OccursAt(s, sub, q)
    ensures CountFrom(s, sub, i) == 1 + CountFrom(s, sub, p + |sub|)
    decreases p - i
  {
    if i < p {
      assert !OccursAt(s, sub, i);
      CountFromStep(s, sub, i + 1, p);
    }
  }

  /** `ps` lists occurrences of `sub` at or after `i`, in increasing order,
      no two of them overlapping. */
  ghost predicate DisjointOccurrences(s: string, sub: string, ps: seq<nat>, i: nat) {
    && (forall j :: 0 <= j < |ps| ==> i <= ps[j] && OccursAt(s, sub, ps[j]))
    && (forall a, b :: 0 <= a < b < |ps| ==> ps[a] + |sub| <= ps[b])
  }

  /** The occurrences `str.count` counts from position `i` on. */
  ghost function GreedyOccurrences(s: string, sub: string, i: nat): seq<nat>
    requires sub != []
    decreases |s| - i
  {
    if i + |sub| > |s| then []
    else if s[i..i + |sub|] == sub then [i] + GreedyOccurrences(s, sub, i + |sub|)
    else GreedyOccurrences(s, sub, i + 1)
  }

  lemma {:induction false} GreedyAttains(s: string, sub: string, i: nat)
    requires sub != []
    ensures DisjointOccurrences(s, sub, GreedyOccurrences(s, sub, i), i)
    ensures |GreedyOccurrences(s, sub, i)| == CountFrom(s, sub, i)
    decreases |s| - i
  {
    if i + |sub| > |s| {
    } else if s[i..i + |sub|] == sub {
      GreedyAttains(s, sub, i + |sub|);
      var rest := GreedyOccurrences(s, sub, i + |sub|);
      var ps := [i] + rest;
      assert forall j :: 1 <= j < |ps| ==> ps[j] == rest[j - 1];
      assert OccursAt(s, sub, i);
    } else {
      GreedyAttains(s, sub, i + 1);
    }
  }

  lemma {:induction false} CountFromMaximal(s: string, sub: string, i: nat, ps: seq<nat>)
    requires sub != [] && DisjointOccurrences(s, sub, ps, i)
    ensures |ps| <= CountFrom(s, sub, i)
    decreases |s| - i
  {
    assert ps != [] ==> i <= ps[0] && OccursAt(s, sub, ps[0]);
    if ps == [] {
    } else if i + |sub| > |s| {
    } else if s[i..i + |sub|] == sub {
      DisjointTail(s, sub, ps, i);
      CountFromMaximal(s, sub, i + |sub|, ps[1..]);
    } else {
      DisjointSkip(s, sub, ps, i);
      CountFromMaximal(s, sub, i + 1, ps);
    }
  }

  /** Past its first occurrence, a disjoint list continues after that
      occurrence ends. */
  lemma DisjointTail(s: string, sub: string, ps: seq<nat>, i: nat)
    requires ps != [] && DisjointOccurrences(s, sub, ps, i)
    ensures DisjointOccurrences(s, sub, ps[1..], i + |sub|)
  {
    var rest := ps[1..];
    assert forall j :: 0 <= j < |rest| ==> rest[j] == ps[j + 1] && ps[0] + |sub| <= ps[j + 1];
    assert forall a, b :: 0 <= a < b < |rest| ==> rest[a] == ps[a + 1] && rest[b] == ps[b + 1];
  }

  /** Where `sub` does not occur, a disjoint list starts one position later. */
  lemma DisjointSkip(s: string, sub: string, ps: seq<nat>, i: nat)
    requires DisjointOccurrences(s, sub, ps, i) && !OccursAt(s, sub, i)
    ensures DisjointOccurrences(s, sub, ps, i + 1)
  {
    if ps != [] {
      assert OccursAt(s, sub, ps[0]);
      assert forall j :: 0 < j < |ps| ==> ps[0] + |sub| <= ps[j];
    }
  }

  /** `str.count` of a non-empty string is the largest number of pairwise
      non-overlapping occurrences: that many exist, and no more. */
  lemma CountIsMaximum(s: string, sub: string)
    requires sub != []
    ensures exists ps :: DisjointOccurrences(s, sub, ps, 0) && |ps| == CountOcc(s, sub)
    ensures forall ps :: DisjointOccurrences(s, sub, ps, 0) ==> |ps| <= CountOcc(s, sub)
  {
    GreedyAttains(s, sub, 0);
    forall ps | DisjointOccurrences(s, sub, ps, 0) ensures |ps| <= CountOcc(s, sub) {
      CountFromMaximal(s, sub, 0, ps);
    }
  }

  /** The number of positions at or after `i` that hold `c`. */
  function CharCount(s: string, c: char, i: nat): nat
    decreases |s| - i
  {
    if i >= |s| then 0 else (if s[i] == c then 1 else 0) + CharCount(s, c, i + 1)
  }

  /** One-character strings never overlap, so `str.count` of one counts
      every position that holds it. */
  lemma {:induction false} CountSingleChar(s: string, c: char, i: nat)
    ensures CountFrom(s, [c], i) == CharCount(s, c, i)
    decreases |s| - i
  {
    if i < |s| {
      assert s[i..i + 1] == [s[i]];
      CountSingleChar(s, c, i + 1);
    }
  }

  /** Positions that do not hold `c` add nothing to its count. */
  lemma {:induction false} CharCountSkip(s: string, c: char, i: nat, j: nat)
    requires i <= j <= |s|
    requires forall k :: i <= k < j ==> s[k] != c
    ensures CharCount(s, c, i) == CharCount(s, c, j)
    decreases j - i
  {
    if i < j {
      CharCountSkip(s, c, i + 1, j);
    }
  }
}
