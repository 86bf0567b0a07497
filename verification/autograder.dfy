/** The output comparison of the auto-grader: a test passes when the program's
    output lines equal the expected lines, and a failing test is scored by the
    number of line positions at which the two differ, the shorter list padded
    with a placeholder line. */
module Autograder {

  /** The line a list is padded with past its end. */
  const NoLine := "<no line>"

  function Max(a: nat, b: nat): nat {
    if a < b then b else a
  }

  /** Line `i` of `lines`, or the placeholder past its end. */
  function LineOrPad(lines: seq<string>, i: nat): string {
    if i < |lines| then lines[i] else NoLine
  }

  predicate DiffersAt(expected: seq<string>, actual: seq<string>, i: nat) {
    LineOrPad(expected, i) != LineOrPad(actual, i)
  }

  /** The positions, among the first `n`, at which the padded lists differ. */
  function DiffPositions(expected: seq<string>, actual: seq<string>, n: nat): set<nat> {
    set i: nat | i < n && DiffersAt(expected, actual, i)
  }

  function CompareOutputs(expected: seq<string>, actual: seq<string>): (same: bool)
    ensures same <==> |expected| == |actual| && forall i :: 0 <= i < |expected| ==> expected[i] == actual[i]
  {
    expected == actual
  }

  /** The number of differing positions among the first `n`, counted one
      position at a time as the comparison loop does. */
  function CountBelow(expected: seq<string>, actual: seq<string>, n: nat): (count: nat)
    ensures count <= n
  {
    if n == 0 then 0
    else CountBelow(expected, actual, n - 1) + if DiffersAt(expected, actual, n - 1) then 1 else 0
  }

  /** The loop's count is the number of differing positions. */
  lemma {:induction false} CountBelowIsCardinality(expected: seq<string>, actual: seq<string>, n: nat)
    ensures CountBelow(expected, actual, n) == |DiffPositions(expected, actual, n)|
  {
    if n == 0 {
      assert DiffPositions(expected, actual, 0) == {};
    } else {
      CountBelowIsCardinality(expected, actual, n - 1);
      DiffPositionsStep(expected, actual, n - 1);
    }
  }

  /** Extending the range by one position adds that position exactly when the
      lines there differ. */
  lemma DiffPositionsStep(expected: seq<string>, actual: seq<string>, n: nat)
    ensures |DiffPositions(expected, actual, n + 1)| ==
      |DiffPositions(expected, actual, n)| + if DiffersAt(expected, actual, n) then 1 else 0
  {
    var before := DiffPositions(expected, actual, n);
    if DiffersAt(expected, actual, n) {
      assert DiffPositions(expected, actual, n + 1) == before + {n};
    } else {
      assert DiffPositions(expected, actual, n + 1) == before;
    }
  }

  function CountDifferences(expected: seq<string>, actual: seq<string>): (count: nat)
    ensures count <= Max(|expected|, |actual|)
    ensures count == |DiffPositions(expected, actual, Max(|expected|, |actual|))|
  {
    CountBelowIsCardinality(expected, actual, Max(|expected|, |actual|));
    CountBelow(expected, actual, Max(|expected|, |actual|))
  }

  lemma CountBelowSymmetric(expected: seq<string>, actual: seq<string>, n: nat)
    ensures CountBelow(expected, actual, n) == CountBelow(actual, expected, n)
  {
    assert DiffPositions(expected, actual, n) == DiffPositions(actual, expected, n);
  }

  /** A list compared with itself has no differences. */
  lemma CountDifferencesOfSame(lines: seq<string>)
    ensures CountDifferences(lines, lines) == 0
  {
  }

  lemma CountDifferencesSymmetric(expected: seq<string>, actual: seq<string>)
    ensures CountDifferences(expected, actual) == CountDifferences(actual, expected)
  {
    CountBelowSymmetric(expected, actual, Max(|expected|, |actual|));
  }

  /** For outputs of equal length, a failing comparison is scored with at
      least one difference and a passing one with none. */
  lemma EqualLengthFailureHasDifference(expected: seq<string>, actual: seq<string>)
    requires |expected| == |actual|
    ensures !CompareOutputs(expected, actual) <==> CountDifferences(expected, actual) >= 1
  {
    if !CompareOutputs(expected, actual) {
      var i :| 0 <= i < |expected| && expected[i] != actual[i];
      assert i in DiffPositions(expected, actual, |expected|);
    } else {
      CountDifferencesOfSame(expected);
    }
  }

  lemma CountBelowAppend(expected: seq<string>, actual: seq<string>, line: string, n: nat)
    requires |expected| == |actual|
    requires n <= |expected|
    ensures CountBelow(expected + [line], actual + [line], n) == CountBelow(expected, actual, n)
  {
    forall i: nat | i < n
      ensures DiffersAt(expected + [line], actual + [line], i) == DiffersAt(expected, actual, i)
    {
      assert (expected + [line])[i] == expected[i];
      assert (actual + [line])[i] == actual[i];
    }
    assert DiffPositions(expected + [line], actual + [line], n) == DiffPositions(expected, actual, n);
  }

  /** Appending the same line to outputs of equal length adds no difference. */
  lemma AppendSameLine(expected: seq<string>, actual: seq<string>, line: string)
    requires |expected| == |actual|
    ensures CountDifferences(expected + [line], actual + [line]) == CountDifferences(expected, actual)
  {
    var n := |expected|;
    CountBelowAppend(expected, actual, line, n);
    assert !DiffersAt(expected + [line], actual + [line], n);
  }

  /** For outputs of different lengths the lines are aligned by position, so
      appending the same line can add differences: ["a"] against ["a", "b"]
      differs once, ["a", "c"] against ["a", "b", "c"] twice. */
  lemma AppendSameLineMisaligned()
    ensures CountDifferences(["a"], ["a", "b"]) == 1
    ensures CountDifferences(["a", "c"], ["a", "b", "c"]) == 2
  {
    assert DiffersAt(["a"], ["a", "b"], 1);
    assert !DiffersAt(["a", "c"], ["a", "b", "c"], 0);
    assert CountBelow(["a", "c"], ["a", "b", "c"], 1) == 0;
    assert DiffersAt(["a", "c"], ["a", "b", "c"], 1);
    assert CountBelow(["a", "c"], ["a", "b", "c"], 2) == 1;
    assert DiffersAt(["a", "c"], ["a", "b", "c"], 2);
  }

  /** An output line that reads exactly like the placeholder matches a missing
      line: the comparison fails, yet no difference is counted. */
  lemma PlaceholderLineHidesMissingLine()
    ensures !CompareOutputs(["a"], ["a", NoLine])
    ensures CountDifferences(["a"], ["a", NoLine]) == 0
  {
    assert !DiffersAt(["a"], ["a", NoLine], 1);
  }
}
