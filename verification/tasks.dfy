/**
 * The three task writers: `write_classification_results`,
 * `write_regression_results` and `write_clustering_results`. Each builds its
 * summary (third) line and hands over to the general writer; the
 * classification and clustering writers first check the sizes of their
 * arguments.
 */
module Tasks {
  import opened Outcomes
  import opened Text
  import opened Numbers
  import opened FileStore
  import opened Writer

  /** A 2-D probability array: one row per case, `columns` values in every row (`shape[1]`). */
  datatype Matrix = Matrix(rows: seq<seq<Num>>, columns: nat)

  predicate Rectangular(m: Matrix)
  {
    forall i :: 0 <= i < |m.rows| ==> |m.rows[i]| == m.columns
  }

  type Probabilities = m: Matrix | Rectangular(m) witness Matrix([], 0)

  /** The summary values of a classification run, in the order of its third line. */
  datatype ClassificationSummary = ClassificationSummary(
    accuracy: Num,
    fitTime: Num,
    predictTime: Num,
    benchmarkTime: Num,
    memoryUsage: Num,
    nClasses: int,
    trainEstimateMethod: string,
    trainEstimateTime: Num,
    fitAndEstimateTime: Num)

  /** The summary values of a regression run, in the order of its third line. */
  datatype RegressionSummary = RegressionSummary(
    mse: Num,
    fitTime: Num,
    predictTime: Num,
    benchmarkTime: Num,
    memoryUsage: Num,
    trainEstimateMethod: string,
    trainEstimateTime: Num,
    fitAndEstimateTime: Num)

  /** The summary values of a clustering run, in the order of its third line. */
  datatype ClusteringSummary = ClusteringSummary(
    clusteringAccuracy: Num,
    fitTime: Num,
    predictTime: Num,
    benchmarkTime: Num,
    memoryUsage: Num,
    nClasses: int,
    nClusters: int)

  function ClassificationThirdLineFields(str: Num -> string, s: ClassificationSummary): seq<string>
  {
    [str(s.accuracy), str(s.fitTime), str(s.predictTime), str(s.benchmarkTime), str(s.memoryUsage),
     DecimalText(s.nClasses), s.trainEstimateMethod, str(s.trainEstimateTime), str(s.fitAndEstimateTime)]
  }

  function RegressionThirdLineFields(str: Num -> string, s: RegressionSummary): seq<string>
  {
    [str(s.mse), str(s.fitTime), str(s.predictTime), str(s.benchmarkTime), str(s.memoryUsage),
     s.trainEstimateMethod, str(s.trainEstimateTime), str(s.fitAndEstimateTime)]
  }

  function ClusteringThirdLineFields(str: Num -> string, s: ClusteringSummary): seq<string>
  {
    [str(s.clusteringAccuracy), str(s.fitTime), str(s.predictTime), str(s.benchmarkTime), str(s.memoryUsage),
     DecimalText(s.nClasses), DecimalText(s.nClusters)]
  }

  /**
   * What `write_classification_results` does. Its size check is Python's
   * chained `a != b != c`, that is `a != b and b != c`; a mismatch it lets
   * through is caught by the general writer's own check. A class count above
   * -1 must equal the number of probability columns.
   */
  function ClassificationResults(
    str: Num -> string, predictions: seq<Num>, probabilities: Probabilities, labels: seq<Num>,
    info: RunInfo, parameterInfo: string, summary: ClassificationSummary, before: DiskState): (Outcome, DiskState)
  {
    if |predictions| != |probabilities.rows| && |probabilities.rows| != |labels| then (Fail(IndexError), before)
    else if summary.nClasses > -1 && summary.nClasses != probabilities.columns then (Fail(IndexError), before)
    else
      WriteResults(str, predictions, labels, Some(probabilities.rows), info, parameterInfo,
                   Join(ClassificationThirdLineFields(str, summary), ','), before)
  }

  /** What `write_regression_results` does: no checks of its own and no probabilities. */
  function RegressionResults(
    str: Num -> string, predictions: seq<Num>, labels: seq<Num>,
    info: RunInfo, parameterInfo: string, summary: RegressionSummary, before: DiskState): (Outcome, DiskState)
  {
    WriteResults(str, predictions, labels, None, info, parameterInfo,
                 Join(RegressionThirdLineFields(str, summary), ','), before)
  }

  /**
   * What `write_clustering_results` does: the same chained size check as
   * classification, and a cluster count above -1 must equal the number of
   * probability columns.
   */
  function ClusteringResults(
    str: Num -> string, predictions: seq<Num>, probabilities: Probabilities, labels: seq<Num>,
    info: RunInfo, parameterInfo: string, summary: ClusteringSummary, before: DiskState): (Outcome, DiskState)
  {
    if |predictions| != |probabilities.rows| && |probabilities.rows| != |labels| then (Fail(IndexError), before)
    else if summary.nClusters > -1 && summary.nClusters != probabilities.columns then (Fail(IndexError), before)
    else
      WriteResults(str, predictions, labels, Some(probabilities.rows), info, parameterInfo,
                   Join(ClusteringThirdLineFields(str, summary), ','), before)
  }

  method WriteClassificationResults(
    disk: Disk, str: Num -> string, predictions: seq<Num>, probabilities: Probabilities, labels: seq<Num>,
    info: RunInfo, parameterInfo: string, summary: ClassificationSummary) returns (r: Outcome)
    modifies disk
    ensures (r, disk.State()) == ClassificationResults(str, predictions, probabilities, labels, info, parameterInfo, summary, old(disk.State()))
  {
    if |predictions| != |probabilities.rows| && |probabilities.rows| != |labels| {
      return Fail(IndexError);
    }
    if summary.nClasses > -1 && summary.nClasses != probabilities.columns {
      return Fail(IndexError);
    }
    var thirdLine := Join(ClassificationThirdLineFields(str, summary), ',');
    r := WriteResultsToTsmlFormat(disk, str, predictions, labels, Some(probabilities.rows), info, parameterInfo, thirdLine);
  }

  method WriteRegressionResults(
    disk: Disk, str: Num -> string, predictions: seq<Num>, labels: seq<Num>,
    info: RunInfo, parameterInfo: string, summary: RegressionSummary) returns (r: Outcome)
    modifies disk
    ensures (r, disk.State()) == RegressionResults(str, predictions, labels, info, parameterInfo, summary, old(disk.State()))
  {
    var thirdLine := Join(RegressionThirdLineFields(str, summary), ',');
    r := WriteResultsToTsmlFormat(disk, str, predictions, labels, None, info, parameterInfo, thirdLine);
  }

  method WriteClusteringResults(
    disk: Disk, str: Num -> string, predictions: seq<Num>, probabilities: Probabilities, labels: seq<Num>,
    info: RunInfo, parameterInfo: string, summary: ClusteringSummary) returns (r: Outcome)
    modifies disk
    ensures (r, disk.State()) == ClusteringResults(str, predictions, probabilities, labels, info, parameterInfo, summary, old(disk.State()))
  {
    if |predictions| != |probabilities.rows| && |probabilities.rows| != |labels| {
      return Fail(IndexError);
    }
    if summary.nClusters > -1 && summary.nClusters != probabilities.columns {
      return Fail(IndexError);
    }
    var thirdLine := Join(ClusteringThirdLineFields(str, summary), ',');
    r := WriteResultsToTsmlFormat(disk, str, predictions, labels, Some(probabilities.rows), info, parameterInfo, thirdLine);
  }

  /**
   * Every disagreement among the three sizes ends in IndexError with nothing
   * touched: the chained check catches a prediction count that differs from
   * both others, and the general writer catches the rest.
   */
  lemma ClassificationSizeMismatch(
    str: Num -> string, predictions: seq<Num>, probabilities: Probabilities, labels: seq<Num>,
    info: RunInfo, parameterInfo: string, summary: ClassificationSummary, before: DiskState)
    requires |predictions| != |probabilities.rows| || |probabilities.rows| != |labels|
    ensures ClassificationResults(str, predictions, probabilities, labels, info, parameterInfo, summary, before)
      == (Fail(IndexError), before)
  {
  }

  lemma ClusteringSizeMismatch(
    str: Num -> string, predictions: seq<Num>, probabilities: Probabilities, labels: seq<Num>,
    info: RunInfo, parameterInfo: string, summary: ClusteringSummary, before: DiskState)
    requires |predictions| != |probabilities.rows| || |probabilities.rows| != |labels|
    ensures ClusteringResults(str, predictions, probabilities, labels, info, parameterInfo, summary, before)
      == (Fail(IndexError), before)
  {
  }

  /**
   * The chained check lets through a label count that differs from two
   * equal others: with a consistent class count the classification writer
   * hands over to the general writer, whose own check then decides.
   */
  lemma ChainedCheckDefers(
    str: Num -> string, predictions: seq<Num>, probabilities: Probabilities, labels: seq<Num>,
    info: RunInfo, parameterInfo: string, summary: ClassificationSummary, before: DiskState)
    requires |predictions| == |probabilities.rows| != |labels|
    requires summary.nClasses <= -1 || summary.nClasses == probabilities.columns
    ensures ClassificationResults(str, predictions, probabilities, labels, info, parameterInfo, summary, before)
      == WriteResults(str, predictions, labels, Some(probabilities.rows), info, parameterInfo,
                      Join(ClassificationThirdLineFields(str, summary), ','), before)
  {
  }
}
