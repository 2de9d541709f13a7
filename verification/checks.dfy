/**
 * The line predicates of the results-file validator: the first-line and
 * second-line checks, the three third-line layouts (classification,
 * regression, clustering) and the data-line check. A line is what
 * `readlines()` returns, so it may end in a line break; every check first
 * splits it at commas.
 */
module LineChecks {
  import opened Text
  import opened Numbers

  /** `line.split(",")`. */
  function Fields(line: string): (fields: seq<string>)
    ensures |fields| >= 1
  {
    Split(line, ',')
  }

  /** `_check_first_line`: at least five fields, that is at least four commas. */
  function CheckFirstLine(line: string): (ok: bool)
    ensures ok <==> multiset(line)[','] >= 4
  {
    SplitFieldCount(line, ',');
    |Fields(line)| >= 5
  }

  /** `_check_second_line`: a split never has fewer than one field, so every line passes. */
  function CheckSecondLine(line: string): (ok: bool)
    ensures ok
  {
    |Fields(line)| >= 1
  }

  /** The loop of `_check_line_length_and_floats` over the listed positions. */
  function AllFloats(isFloat: string -> bool, fields: seq<string>, floats: seq<nat>): (ok: bool)
    requires forall k :: 0 <= k < |floats| ==> floats[k] < |fields|
    ensures ok <==> forall k :: 0 <= k < |floats| ==> isFloat(fields[floats[k]])
    decreases |floats|
  {
    floats == [] || (isFloat(fields[floats[0]]) && AllFloats(isFloat, fields, floats[1..]))
  }

  /**
   * `_check_line_length_and_floats`: exactly `length` fields, and the field
   * at every listed position parses as a float.
   */
  function CheckLineLengthAndFloats(isFloat: string -> bool, fields: seq<string>, length: nat, floats: seq<nat>): (ok: bool)
    requires forall k :: 0 <= k < |floats| ==> floats[k] < length
  {
    if |fields| != length then false else AllFloats(isFloat, fields, floats)
  }

  const ClassificationFloats: seq<nat> := [0, 1, 2, 3, 4, 5, 7, 8]
  const RegressionFloats: seq<nat> := [0, 1, 2, 3, 4, 6, 7]
  const ClusteringFloats: seq<nat> := [0, 1, 2, 3, 4, 5, 6]

  /** `_check_classification_third_line`: 9 fields, all but field 6 numeric. */
  predicate CheckClassificationThirdLine(isFloat: string -> bool, line: string)
  {
    CheckLineLengthAndFloats(isFloat, Fields(line), 9, ClassificationFloats)
  }

  /** `_check_regression_third_line`: 8 fields, all but field 5 numeric. */
  predicate CheckRegressionThirdLine(isFloat: string -> bool, line: string)
  {
    CheckLineLengthAndFloats(isFloat, Fields(line), 8, RegressionFloats)
  }

  /** `_check_clustering_third_line`: 7 fields, all numeric. */
  predicate CheckClusteringThirdLine(isFloat: string -> bool, line: string)
  {
    CheckLineLengthAndFloats(isFloat, Fields(line), 7, ClusteringFloats)
  }

  /** The line matches one of the three third-line layouts. */
  predicate IsThirdLine(isFloat: string -> bool, line: string)
  {
    CheckClassificationThirdLine(isFloat, line) ||
    CheckRegressionThirdLine(isFloat, line) ||
    CheckClusteringThirdLine(isFloat, line)
  }

  /**
   * `_check_results_line`: the label and the prediction parse; with
   * probabilities there are at least five fields, field 2 is empty and the
   * first two probabilities parse; without, there are exactly two fields.
   */
  predicate CheckResultsLine(isFloat: string -> bool, line: string, probabilities: bool)
  {
    var f := Fields(line);
    if |f| < 2 then false
    else if !isFloat(f[0]) || !isFloat(f[1]) then false
    else if probabilities then
      if |f| < 5 || f[2] != "" then false
      else isFloat(f[3]) && isFloat(f[4])
    else |f| == 2
  }

  /** No line satisfies two layouts: their field counts differ. */
  lemma ThirdLinesExclusive(isFloat: string -> bool, line: string)
    ensures !(CheckClassificationThirdLine(isFloat, line) && CheckRegressionThirdLine(isFloat, line))
    ensures !(CheckClassificationThirdLine(isFloat, line) && CheckClusteringThirdLine(isFloat, line))
    ensures !(CheckRegressionThirdLine(isFloat, line) && CheckClusteringThirdLine(isFloat, line))
  {
  }

  /**
   * A line accepted as a data line never matches a third-line layout: field
   * 2 is empty and every layout wants it numeric, or there are only two
   * fields.
   */
  lemma ResultsLineIsNotThirdLine(isFloat: string -> bool, line: string, probabilities: bool)
    requires FloatLike(isFloat)
    requires CheckResultsLine(isFloat, line, probabilities)
    ensures !IsThirdLine(isFloat, line)
  {
    var f := Fields(line);
    if probabilities {
      assert ClassificationFloats[2] == 2 && RegressionFloats[2] == 2 && ClusteringFloats[2] == 2;
      assert !isFloat(f[2]);
    }
  }

  /** A data line whose label is written as "?" is rejected, whatever follows it. */
  lemma QuestionMarkLabelRejected(isFloat: string -> bool, rest: string, probabilities: bool)
    requires FloatLike(isFloat)
    ensures !CheckResultsLine(isFloat, "?," + rest, probabilities)
  {
    assert "?," + rest == "?" + [','] + rest;
    SplitConcat("?", rest, ',');
    SplitNoSep("?", ',');
  }

  /** The fields of a line with a break appended: the break ends up in the last field. */
  lemma FieldsWithBreak(line: string)
    ensures Fields(line + "\n") == ExtendLast(Fields(line), "\n")
  {
    SplitExtendLast(line, "\n", ',');
  }

  lemma AllFloatsWithBreak(isFloat: string -> bool, fields: seq<string>, floats: seq<nat>)
    requires FloatLike(isFloat)
    requires |fields| >= 1
    requires forall k :: 0 <= k < |floats| ==> floats[k] < |fields|
    ensures AllFloats(isFloat, ExtendLast(fields, "\n"), floats) == AllFloats(isFloat, fields, floats)
  {
    var g := ExtendLast(fields, "\n");
    forall k | 0 <= k < |floats| ensures isFloat(g[floats[k]]) == isFloat(fields[floats[k]]) {
      if floats[k] == |fields| - 1 {
        assert isFloat(WithBreak(fields[floats[k]])) == isFloat(fields[floats[k]]);
      }
    }
  }

  /**
   * The break that ends a line read by `readlines()` never changes a header
   * check: it lands in the last field, and float() ignores it.
   */
  lemma HeaderChecksIgnoreBreak(isFloat: string -> bool, line: string)
    requires FloatLike(isFloat)
    ensures CheckFirstLine(line + "\n") == CheckFirstLine(line)
    ensures CheckClassificationThirdLine(isFloat, line + "\n") == CheckClassificationThirdLine(isFloat, line)
    ensures CheckRegressionThirdLine(isFloat, line + "\n") == CheckRegressionThirdLine(isFloat, line)
    ensures CheckClusteringThirdLine(isFloat, line + "\n") == CheckClusteringThirdLine(isFloat, line)
  {
    FieldsWithBreak(line);
    var f := Fields(line);
    if |f| == 9 { AllFloatsWithBreak(isFloat, f, ClassificationFloats); }
    if |f| == 8 { AllFloatsWithBreak(isFloat, f, RegressionFloats); }
    if |f| == 7 { AllFloatsWithBreak(isFloat, f, ClusteringFloats); }
  }

  /** Neither does the break change the data-line check. */
  lemma ResultsLineIgnoresBreak(isFloat: string -> bool, line: string, probabilities: bool)
    requires FloatLike(isFloat)
    ensures CheckResultsLine(isFloat, line + "\n", probabilities) == CheckResultsLine(isFloat, line, probabilities)
  {
    FieldsWithBreak(line);
    var f := Fields(line);
    var g := Fields(line + "\n");
    var last := |f| - 1;
    assert g[last] == f[last] + "\n" && g[last] != "";
    assert isFloat(WithBreak(f[last])) == isFloat(f[last]);
    assert forall k :: 0 <= k < last ==> g[k] == f[k];
  }
}
