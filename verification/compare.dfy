/**
 * `compare_result_file_resample`: two results files come from the same
 * resample when they have as many lines and every data line starts with the
 * same label.
 */
module Compare {
  import opened Outcomes
  import opened Text
  import opened LineChecks

  /** `line.split(",")[0]`: the label of a data line. */
  function FirstField(line: string): string
  {
    Fields(line)[0]
  }

  /** From index 3 on, the lines start with the same field; the three header lines are not looked at. */
  predicate SameLabels(lines1: seq<string>, lines2: seq<string>)
    requires |lines1| == |lines2|
  {
    forall i :: 3 <= i < |lines1| ==> FirstField(lines1[i]) == FirstField(lines2[i])
  }

  /** What `compare_result_file_resample` ends in for the lines of two files. */
  function Comparison(lines1: seq<string>, lines2: seq<string>): Result<bool>
  {
    if |lines1| != |lines2| then Err(ValueError) else Ok(SameLabels(lines1, lines2))
  }

  /** `compare_result_file_resample` on the texts of two files. */
  method CompareResultFileResample(text1: string, text2: string) returns (r: Result<bool>)
    ensures r == Comparison(ReadLines(text1), ReadLines(text2))
  {
    var lines1 := ReadLines(text1);
    var lines2 := ReadLines(text2);
    if |lines1| != |lines2| {
      return Err(ValueError);
    }
    var i := 3;
    while i < |lines1|
      invariant 3 <= i
      invariant forall k :: 3 <= k < i && k < |lines1| ==> FirstField(lines1[k]) == FirstField(lines2[k])
    {
      if FirstField(lines1[i]) != FirstField(lines2[i]) {
        return Ok(false);
      }
      i := i + 1;
    }
    return Ok(true);
  }

  /** The comparison does not depend on the order of the files. */
  lemma ComparisonSymmetric(lines1: seq<string>, lines2: seq<string>)
    ensures Comparison(lines1, lines2) == Comparison(lines2, lines1)
  {
  }

  /** A file is always its own resample. */
  lemma ComparisonReflexive(lines: seq<string>)
    ensures Comparison(lines, lines) == Ok(true)
  {
  }

  /** Changing the three header lines of either file never changes the answer. */
  lemma ComparisonIgnoresHeaders(h1: seq<string>, g1: seq<string>, h2: seq<string>, g2: seq<string>, d1: seq<string>, d2: seq<string>)
    requires |h1| == |g1| == |h2| == |g2| == 3
    ensures Comparison(h1 + d1, h2 + d2) == Comparison(g1 + d1, g2 + d2)
  {
    if |d1| == |d2| {
      forall i | 3 <= i < 3 + |d1|
        ensures (h1 + d1)[i] == (g1 + d1)[i] == d1[i - 3] && (h2 + d2)[i] == (g2 + d2)[i] == d2[i - 3]
      {
      }
    }
  }

  /** The label field of a line is the text before its first comma. */
  lemma FirstFieldOf(head: string, rest: string)
    requires ',' !in head
    ensures FirstField(head + "," + rest) == head
  {
    assert head + "," + rest == head + [','] + rest;
    SplitConcat(head, rest, ',');
    SplitNoSep(head, ',');
  }
}
