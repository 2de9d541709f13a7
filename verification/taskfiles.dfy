/**
 * The files of the three task writers: each third line has the field count
 * and numeric fields of its layout, so a classification, regression or
 * clustering file written from numeric labels passes
 * `validate_results_file`, and a classification file with a single
 * probability column never does.
 */
module TaskFiles {
  import opened Outcomes
  import opened Text
  import opened Numbers
  import opened FileStore
  import opened LineChecks
  import opened Writer
  import opened Layout
  import opened Validate
  import opened Tasks
  import opened RoundTrip

  /** A summary string that can stand in a line of comma-separated values. */
  predicate Plain(s: string)
  {
    ',' !in s && '\n' !in s
  }

  /** Every field is plain, so the joined line splits back into them and holds no break. */
  lemma PlainFieldsLine(fields: seq<string>)
    requires |fields| >= 1
    requires forall i :: 0 <= i < |fields| ==> Plain(fields[i])
    ensures Fields(Join(fields, ',')) == fields
    ensures '\n' !in Join(fields, ',')
  {
    SplitJoin(fields, ',');
    JoinAvoids(fields, ',', '\n');
  }

  /** The classification summary line has the classification layout: 9 fields, all but the method name numeric. */
  lemma ClassificationThirdLineLayout(str: Num -> string, isFloat: string -> bool, s: ClassificationSummary)
    requires FloatLike(isFloat) && RendersParseably(str, isFloat)
    requires Plain(s.trainEstimateMethod)
    ensures var line := Join(ClassificationThirdLineFields(str, s), ',');
      |Fields(line)| == 9 && CheckClassificationThirdLine(isFloat, line) && '\n' !in line &&
      IsThirdLine(isFloat, line) && ExpectsProbabilities(isFloat, line)
  {
    var f := ClassificationThirdLineFields(str, s);
    DecimalTextPlain(s.nClasses);
    PlainFieldsLine(f);
  }

  /** The regression summary line has the regression layout, so its file carries no probabilities. */
  lemma RegressionThirdLineLayout(str: Num -> string, isFloat: string -> bool, s: RegressionSummary)
    requires FloatLike(isFloat) && RendersParseably(str, isFloat)
    requires Plain(s.trainEstimateMethod)
    ensures var line := Join(RegressionThirdLineFields(str, s), ',');
      |Fields(line)| == 8 && CheckRegressionThirdLine(isFloat, line) && '\n' !in line &&
      IsThirdLine(isFloat, line) && !ExpectsProbabilities(isFloat, line)
  {
    PlainFieldsLine(RegressionThirdLineFields(str, s));
  }

  /** The clustering summary line has the clustering layout: 7 numeric fields. */
  lemma ClusteringThirdLineLayout(str: Num -> string, isFloat: string -> bool, s: ClusteringSummary)
    requires FloatLike(isFloat) && RendersParseably(str, isFloat)
    ensures var line := Join(ClusteringThirdLineFields(str, s), ',');
      |Fields(line)| == 7 && CheckClusteringThirdLine(isFloat, line) && '\n' !in line &&
      IsThirdLine(isFloat, line) && ExpectsProbabilities(isFloat, line)
  {
    DecimalTextPlain(s.nClasses);
    DecimalTextPlain(s.nClusters);
    PlainFieldsLine(ClusteringThirdLineFields(str, s));
  }

  /** The run values that the first line and the file name are made from, and the parameter line, hold no break. */
  predicate RunPlain(info: RunInfo, parameterInfo: string)
  {
    NormaliseSplit(info.split).Ok? && FirstLinePlain(info) && '\n' !in parameterInfo
  }

  /**
   * A classification file written from numeric labels with at least two
   * classes, sizes that agree and a class count that is unknown (-1) or
   * right passes `validate_results_file`.
   */
  lemma ClassificationFileValidates(
    str: Num -> string, isFloat: string -> bool, predictions: seq<Num>, probabilities: Probabilities, labels: seq<Num>,
    info: RunInfo, parameterInfo: string, summary: ClassificationSummary, before: DiskState)
    requires FloatLike(isFloat) && RendersParseably(str, isFloat)
    requires RunPlain(info, parameterInfo) && Plain(summary.trainEstimateMethod)
    requires |predictions| == |probabilities.rows| == |labels|
    requires probabilities.columns >= 2 && (summary.nClasses <= -1 || summary.nClasses == probabilities.columns)
    requires forall i :: 0 <= i < |labels| ==> !labels[i].NaN?
    ensures var (r, after) := ClassificationResults(str, predictions, probabilities, labels, info, parameterInfo, summary, before);
      r == Pass && WrittenPath(info) in after.files &&
      Validation(isFloat, ReadLines(after.files[WrittenPath(info)])) == Ok(true)
  {
    ClassificationThirdLineLayout(str, isFloat, summary);
    WrittenFileValidates(str, isFloat, predictions, labels, Some(probabilities.rows), info, parameterInfo,
                         Join(ClassificationThirdLineFields(str, summary), ','), before);
  }

  /** A regression file written from numeric labels passes `validate_results_file`. */
  lemma RegressionFileValidates(
    str: Num -> string, isFloat: string -> bool, predictions: seq<Num>, labels: seq<Num>,
    info: RunInfo, parameterInfo: string, summary: RegressionSummary, before: DiskState)
    requires FloatLike(isFloat) && RendersParseably(str, isFloat)
    requires RunPlain(info, parameterInfo) && Plain(summary.trainEstimateMethod)
    requires |predictions| == |labels|
    requires forall i :: 0 <= i < |labels| ==> !labels[i].NaN?
    ensures var (r, after) := RegressionResults(str, predictions, labels, info, parameterInfo, summary, before);
      r == Pass && WrittenPath(info) in after.files &&
      Validation(isFloat, ReadLines(after.files[WrittenPath(info)])) == Ok(true)
  {
    RegressionThirdLineLayout(str, isFloat, summary);
    WrittenFileValidates(str, isFloat, predictions, labels, None, info, parameterInfo,
                         Join(RegressionThirdLineFields(str, summary), ','), before);
  }

  /**
   * A clustering file written from numeric labels with at least two
   * clusters, sizes that agree and a cluster count that is unknown (-1) or
   * right passes `validate_results_file`.
   */
  lemma ClusteringFileValidates(
    str: Num -> string, isFloat: string -> bool, predictions: seq<Num>, probabilities: Probabilities, labels: seq<Num>,
    info: RunInfo, parameterInfo: string, summary: ClusteringSummary, before: DiskState)
    requires FloatLike(isFloat) && RendersParseably(str, isFloat)
    requires RunPlain(info, parameterInfo)
    requires |predictions| == |probabilities.rows| == |labels|
    requires probabilities.columns >= 2 && (summary.nClusters <= -1 || summary.nClusters == probabilities.columns)
    requires forall i :: 0 <= i < |labels| ==> !labels[i].NaN?
    ensures var (r, after) := ClusteringResults(str, predictions, probabilities, labels, info, parameterInfo, summary, before);
      r == Pass && WrittenPath(info) in after.files &&
      Validation(isFloat, ReadLines(after.files[WrittenPath(info)])) == Ok(true)
  {
    ClusteringThirdLineLayout(str, isFloat, summary);
    WrittenFileValidates(str, isFloat, predictions, labels, Some(probabilities.rows), info, parameterInfo,
                         Join(ClusteringThirdLineFields(str, summary), ','), before);
  }

  /**
   * A classification file with fewer than two probability columns and at
   * least one case is written, but never validates: its data lines have at
   * most four fields.
   */
  lemma SingleClassFileRejected(
    str: Num -> string, isFloat: string -> bool, predictions: seq<Num>, probabilities: Probabilities, labels: seq<Num>,
    info: RunInfo, parameterInfo: string, summary: ClassificationSummary, before: DiskState)
    requires FloatLike(isFloat) && RendersParseably(str, isFloat)
    requires RunPlain(info, parameterInfo) && Plain(summary.trainEstimateMethod)
    requires |predictions| == |probabilities.rows| == |labels| >= 1
    requires probabilities.columns < 2 && (summary.nClasses <= -1 || summary.nClasses == probabilities.columns)
    ensures var (r, after) := ClassificationResults(str, predictions, probabilities, labels, info, parameterInfo, summary, before);
      r == Pass && WrittenPath(info) in after.files &&
      Validation(isFloat, ReadLines(after.files[WrittenPath(info)])) != Ok(true)
  {
    var third := Join(ClassificationThirdLineFields(str, summary), ',');
    ClassificationThirdLineLayout(str, isFloat, summary);
    WrittenFileLines(str, isFloat, predictions, labels, Some(probabilities.rows), info, parameterInfo, third, before);
    assert |probabilities.rows[0]| < 2;
    WrittenShortRowRejected(str, isFloat, predictions, labels, probabilities.rows, info, parameterInfo, third, before, 0);
  }
}
