/**
 * The writers and the readers together: what the general writer and the
 * three task writers produce passes `validate_results_file`, except where
 * the format itself forbids it (a NaN label, a single probability column),
 * and `compare_result_file_resample` on two written files compares exactly
 * their labels.
 */
module RoundTrip {
  import opened Outcomes
  import opened Text
  import opened Numbers
  import opened FileStore
  import opened LineChecks
  import opened Writer
  import opened Layout
  import opened Validate
  import opened Compare
  import opened Tasks

  /** A case's line is its label, a comma, and the rest of its fields. */
  lemma DataLineStartsWithLabel(str: Num -> string, truth: Num, prediction: Num, row: Option<seq<Num>>)
    ensures DataLine(str, truth, prediction, row)
      == LabelText(str, truth) + "," + Join(DataFields(str, truth, prediction, row)[1..], ',')
  {
    var f := DataFields(str, truth, prediction, row);
    JoinCons(f, ',');
    assert f[0] == LabelText(str, truth);
  }

  /** The line of a case with numeric values passes the data-line check, with probabilities when it has at least two. */
  lemma DataLineAccepted(str: Num -> string, isFloat: string -> bool, truth: Num, prediction: Num, row: Option<seq<Num>>)
    requires RendersParseably(str, isFloat)
    requires !truth.NaN?
    requires row.Some? ==> |row.value| >= 2
    ensures CheckResultsLine(isFloat, DataLine(str, truth, prediction, row), row.Some?)
  {
    DataLineFields(str, isFloat, truth, prediction, row);
    var f := Fields(DataLine(str, truth, prediction, row));
    assert f[0] == str(truth) && f[1] == str(prediction);
    if row.Some? {
      assert f[2] == "" && f[3] == str(row.value[0]) && f[4] == str(row.value[1]);
    }
  }

  /** A probability row of fewer than two values makes its line fail the check: it has at most four fields. */
  lemma ShortRowRejected(str: Num -> string, isFloat: string -> bool, truth: Num, prediction: Num, row: seq<Num>)
    requires RendersParseably(str, isFloat)
    requires |row| < 2
    ensures !CheckResultsLine(isFloat, DataLine(str, truth, prediction, Some(row)), true)
  {
    DataLineFields(str, isFloat, truth, prediction, Some(row));
  }

  /** A NaN label is written as "?", and the line is then rejected with or without a line break after it. */
  lemma NaNLabelLineRejected(str: Num -> string, isFloat: string -> bool, prediction: Num, row: Option<seq<Num>>, probabilities: bool)
    requires FloatLike(isFloat)
    ensures !CheckResultsLine(isFloat, DataLine(str, NaN, prediction, row) + "\n", probabilities)
  {
    DataLineStartsWithLabel(str, NaN, prediction, row);
    var rest := Join(DataFields(str, NaN, prediction, row)[1..], ',');
    assert DataLine(str, NaN, prediction, row) + "\n" == "?," + (rest + "\n");
    QuestionMarkLabelRejected(isFloat, rest + "\n", probabilities);
  }

  /** The label read back from a written line is the label written. */
  lemma WrittenLabel(str: Num -> string, isFloat: string -> bool, truth: Num, prediction: Num, row: Option<seq<Num>>)
    requires RendersParseably(str, isFloat)
    ensures FirstField(DataLine(str, truth, prediction, row) + "\n") == LabelText(str, truth)
  {
    DataLineStartsWithLabel(str, truth, prediction, row);
    var rest := Join(DataFields(str, truth, prediction, row)[1..], ',');
    assert DataLine(str, truth, prediction, row) + "\n" == LabelText(str, truth) + "," + (rest + "\n");
    FirstFieldOf(LabelText(str, truth), rest + "\n");
  }

  /** Ending every line with a break keeps the data lines valid. */
  lemma DataLinesWithBreaks(isFloat: string -> bool, lines: seq<string>, probabilities: bool)
    requires FloatLike(isFloat)
    requires DataLinesValid(isFloat, lines, probabilities)
    ensures DataLinesValid(isFloat, WithBreaks(lines), probabilities)
  {
    var w := WithBreaks(lines);
    forall i | 3 <= i < |w| ensures CheckResultsLine(isFloat, w[i], probabilities) {
      ResultsLineIgnoresBreak(isFloat, lines[i], probabilities);
    }
  }

  /** Ending the header lines with a break keeps them valid and keeps what the third line asks for. */
  lemma HeadersWithBreaks(isFloat: string -> bool, lines: seq<string>)
    requires FloatLike(isFloat)
    requires |lines| >= 3 && CheckFirstLine(lines[0]) && IsThirdLine(isFloat, lines[2])
    ensures var w := WithBreaks(lines);
      CheckFirstLine(w[0]) && IsThirdLine(isFloat, w[2]) && ExpectsProbabilities(isFloat, w[2]) == ExpectsProbabilities(isFloat, lines[2])
  {
    HeaderChecksIgnoreBreak(isFloat, lines[0]);
    HeaderChecksIgnoreBreak(isFloat, lines[2]);
  }

  /** Lines whose checks all pass validate once each is ended by a break. */
  lemma TerminatedLinesValidate(isFloat: string -> bool, lines: seq<string>)
    requires FloatLike(isFloat)
    requires WellFormed(isFloat, lines)
    ensures Validation(isFloat, WithBreaks(lines)) == Ok(true)
  {
    HeadersWithBreaks(isFloat, lines);
    DataLinesWithBreaks(isFloat, lines, ExpectsProbabilities(isFloat, lines[2]));
  }

  /** The conditions under which the general writer succeeds and its file validates. */
  predicate Writable(
    isFloat: string -> bool, predictions: seq<Num>, labels: seq<Num>, probabilities: Option<seq<seq<Num>>>,
    info: RunInfo, secondLine: string, thirdLine: string)
  {
    |predictions| == |labels| && NormaliseSplit(info.split).Ok? &&
    FirstLinePlain(info) && '\n' !in secondLine && '\n' !in thirdLine &&
    IsThirdLine(isFloat, thirdLine) && ExpectsProbabilities(isFloat, thirdLine) == probabilities.Some? &&
    (probabilities.Some? ==> |probabilities.value| >= |predictions|) &&
    (probabilities.Some? ==> forall i :: 0 <= i < |predictions| ==> |probabilities.value[i]| >= 2) &&
    forall i :: 0 <= i < |labels| ==> !labels[i].NaN?
  }

  /** The header lines of a complete file and the line of each case. */
  lemma WrittenLineAt(
    str: Num -> string, predictions: seq<Num>, labels: seq<Num>, probabilities: Option<seq<seq<Num>>>,
    info: RunInfo, secondLine: string, thirdLine: string, k: nat)
    requires Covers(predictions, labels, probabilities, |predictions|) && NormaliseSplit(info.split).Ok?
    requires k < |predictions|
    ensures var lines := WrittenLines(str, predictions, labels, probabilities, info, secondLine, thirdLine);
      lines[0] == FirstLine(info, NormaliseSplit(info.split).value) && lines[1] == secondLine && lines[2] == thirdLine &&
      lines[3 + k] == DataLine(str, labels[k], predictions[k], RowOf(probabilities, k))
  {
  }

  /** The lines of a file written under Writable pass every check. */
  lemma WrittenLinesWellFormed(
    str: Num -> string, isFloat: string -> bool, predictions: seq<Num>, labels: seq<Num>, probabilities: Option<seq<seq<Num>>>,
    info: RunInfo, secondLine: string, thirdLine: string)
    requires RendersParseably(str, isFloat)
    requires Writable(isFloat, predictions, labels, probabilities, info, secondLine, thirdLine)
    ensures WellFormed(isFloat, WrittenLines(str, predictions, labels, probabilities, info, secondLine, thirdLine))
  {
    var lines := WrittenLines(str, predictions, labels, probabilities, info, secondLine, thirdLine);
    FirstLineFieldCount(info, NormaliseSplit(info.split).value);
    assert lines[0] == FirstLine(info, NormaliseSplit(info.split).value) && lines[2] == thirdLine;
    WrittenDataLinesValid(str, isFloat, predictions, labels, probabilities, info, secondLine, thirdLine);
  }

  /** The line of each case of a file written under Writable passes the data-line check. */
  lemma WrittenDataLineValid(
    str: Num -> string, isFloat: string -> bool, predictions: seq<Num>, labels: seq<Num>, probabilities: Option<seq<seq<Num>>>,
    info: RunInfo, secondLine: string, thirdLine: string, k: nat)
    requires RendersParseably(str, isFloat)
    requires Writable(isFloat, predictions, labels, probabilities, info, secondLine, thirdLine)
    requires k < |predictions|
    ensures CheckResultsLine(isFloat, WrittenLines(str, predictions, labels, probabilities, info, secondLine, thirdLine)[3 + k], probabilities.Some?)
  {
    WrittenLineAt(str, predictions, labels, probabilities, info, secondLine, thirdLine, k);
    DataLineAccepted(str, isFloat, labels[k], predictions[k], RowOf(probabilities, k));
  }

  lemma WrittenDataLinesValid(
    str: Num -> string, isFloat: string -> bool, predictions: seq<Num>, labels: seq<Num>, probabilities: Option<seq<seq<Num>>>,
    info: RunInfo, secondLine: string, thirdLine: string)
    requires RendersParseably(str, isFloat)
    requires Writable(isFloat, predictions, labels, probabilities, info, secondLine, thirdLine)
    ensures DataLinesValid(isFloat, WrittenLines(str, predictions, labels, probabilities, info, secondLine, thirdLine), probabilities.Some?)
  {
    var lines := WrittenLines(str, predictions, labels, probabilities, info, secondLine, thirdLine);
    forall i | 3 <= i < |lines| ensures CheckResultsLine(isFloat, lines[i], probabilities.Some?) {
      WrittenDataLineValid(str, isFloat, predictions, labels, probabilities, info, secondLine, thirdLine, i - 3);
    }
  }

  /**
   * A file the general writer produces from numeric labels, at least two
   * probability columns where its third line calls for them, and
   * break-free header values, passes `validate_results_file`.
   */
  lemma WrittenFileValidates(
    str: Num -> string, isFloat: string -> bool, predictions: seq<Num>, labels: seq<Num>, probabilities: Option<seq<seq<Num>>>,
    info: RunInfo, secondLine: string, thirdLine: string, before: DiskState)
    requires FloatLike(isFloat) && RendersParseably(str, isFloat)
    requires Writable(isFloat, predictions, labels, probabilities, info, secondLine, thirdLine)
    ensures WriteResults(str, predictions, labels, probabilities, info, secondLine, thirdLine, before).0 == Pass
    ensures var after := WriteResults(str, predictions, labels, probabilities, info, secondLine, thirdLine, before).1;
      WrittenPath(info) in after.files &&
      Validation(isFloat, ReadLines(after.files[WrittenPath(info)])) == Ok(true)
  {
    WrittenFileLines(str, isFloat, predictions, labels, probabilities, info, secondLine, thirdLine, before);
    WrittenLinesWellFormed(str, isFloat, predictions, labels, probabilities, info, secondLine, thirdLine);
    TerminatedLinesValidate(isFloat, WrittenLines(str, predictions, labels, probabilities, info, secondLine, thirdLine));
  }

  /** The conditions under which the general writer succeeds with break-free lines. */
  predicate Completes(
    predictions: seq<Num>, labels: seq<Num>, probabilities: Option<seq<seq<Num>>>,
    info: RunInfo, secondLine: string, thirdLine: string)
  {
    |predictions| == |labels| && NormaliseSplit(info.split).Ok? &&
    FirstLinePlain(info) && '\n' !in secondLine && '\n' !in thirdLine &&
    (probabilities.Some? ==> |probabilities.value| >= |predictions|)
  }

  /** One failing data line is enough to make a file fail validation. */
  lemma FailingLineRejected(isFloat: string -> bool, lines: seq<string>, k: nat)
    requires 3 <= k < |lines|
    requires !CheckResultsLine(isFloat, lines[k], ExpectsProbabilities(isFloat, lines[2]))
    ensures Validation(isFloat, lines) != Ok(true)
  {
  }

  /** A line that fails the data-line check makes the lines of a complete file fail validation. */
  lemma FailingWrittenLine(
    str: Num -> string, isFloat: string -> bool, predictions: seq<Num>, labels: seq<Num>, probabilities: Option<seq<seq<Num>>>,
    info: RunInfo, secondLine: string, thirdLine: string, k: nat)
    requires Completes(predictions, labels, probabilities, info, secondLine, thirdLine)
    requires k < |labels|
    requires !CheckResultsLine(isFloat, DataLine(str, labels[k], predictions[k], RowOf(probabilities, k)) + "\n",
                               ExpectsProbabilities(isFloat, thirdLine + "\n"))
    ensures Validation(isFloat, WithBreaks(WrittenLines(str, predictions, labels, probabilities, info, secondLine, thirdLine))) != Ok(true)
  {
    WrittenLineAt(str, predictions, labels, probabilities, info, secondLine, thirdLine, k);
    var written := WrittenLines(str, predictions, labels, probabilities, info, secondLine, thirdLine);
    FailingLineRejected(isFloat, WithBreaks(written), 3 + k);
  }

  /** A line of a complete file that fails the data-line check makes the file fail validation. */
  lemma FailingLineRejectsFile(
    str: Num -> string, isFloat: string -> bool, predictions: seq<Num>, labels: seq<Num>, probabilities: Option<seq<seq<Num>>>,
    info: RunInfo, secondLine: string, thirdLine: string, before: DiskState, k: nat)
    requires RendersParseably(str, isFloat)
    requires Completes(predictions, labels, probabilities, info, secondLine, thirdLine)
    requires k < |labels|
    requires !CheckResultsLine(isFloat, DataLine(str, labels[k], predictions[k], RowOf(probabilities, k)) + "\n",
                               ExpectsProbabilities(isFloat, thirdLine + "\n"))
    ensures var after := WriteResults(str, predictions, labels, probabilities, info, secondLine, thirdLine, before).1;
      WrittenPath(info) in after.files &&
      Validation(isFloat, ReadLines(after.files[WrittenPath(info)])) != Ok(true)
  {
    FailingWrittenLine(str, isFloat, predictions, labels, probabilities, info, secondLine, thirdLine, k);
    WrittenFileLines(str, isFloat, predictions, labels, probabilities, info, secondLine, thirdLine, before);
  }

  /**
   * A successful write with a NaN label never validates: the "?" written
   * for it does not parse as a float.
   */
  lemma WrittenNaNLabelRejected(
    str: Num -> string, isFloat: string -> bool, predictions: seq<Num>, labels: seq<Num>, probabilities: Option<seq<seq<Num>>>,
    info: RunInfo, secondLine: string, thirdLine: string, before: DiskState, k: nat)
    requires FloatLike(isFloat) && RendersParseably(str, isFloat)
    requires Completes(predictions, labels, probabilities, info, secondLine, thirdLine)
    requires k < |labels| && labels[k].NaN?
    ensures var after := WriteResults(str, predictions, labels, probabilities, info, secondLine, thirdLine, before).1;
      WrittenPath(info) in after.files &&
      Validation(isFloat, ReadLines(after.files[WrittenPath(info)])) != Ok(true)
  {
    NaNLabelLineRejected(str, isFloat, predictions[k], RowOf(probabilities, k), ExpectsProbabilities(isFloat, thirdLine + "\n"));
    FailingLineRejectsFile(str, isFloat, predictions, labels, probabilities, info, secondLine, thirdLine, before, k);
  }

  /**
   * A successful write whose third line calls for probabilities but whose
   * row for some case holds fewer than two values never validates.
   */
  lemma WrittenShortRowRejected(
    str: Num -> string, isFloat: string -> bool, predictions: seq<Num>, labels: seq<Num>, probabilities: seq<seq<Num>>,
    info: RunInfo, secondLine: string, thirdLine: string, before: DiskState, k: nat)
    requires FloatLike(isFloat) && RendersParseably(str, isFloat)
    requires Completes(predictions, labels, Some(probabilities), info, secondLine, thirdLine)
    requires ExpectsProbabilities(isFloat, thirdLine)
    requires k < |labels| && |probabilities[k]| < 2
    ensures var after := WriteResults(str, predictions, labels, Some(probabilities), info, secondLine, thirdLine, before).1;
      WrittenPath(info) in after.files &&
      Validation(isFloat, ReadLines(after.files[WrittenPath(info)])) != Ok(true)
  {
    HeaderChecksIgnoreBreak(isFloat, thirdLine);
    var line := DataLine(str, labels[k], predictions[k], Some(probabilities[k]));
    ShortRowRejected(str, isFloat, labels[k], predictions[k], probabilities[k]);
    ResultsLineIgnoresBreak(isFloat, line, true);
    FailingLineRejectsFile(str, isFloat, predictions, labels, Some(probabilities), info, secondLine, thirdLine, before, k);
  }

  /** The labels read back from the lines of a complete file are the labels written. */
  lemma WrittenLinesLabels(
    str: Num -> string, isFloat: string -> bool, predictions: seq<Num>, labels: seq<Num>, probabilities: Option<seq<seq<Num>>>,
    info: RunInfo, secondLine: string, thirdLine: string)
    requires RendersParseably(str, isFloat)
    requires Completes(predictions, labels, probabilities, info, secondLine, thirdLine)
    ensures var lines := WithBreaks(WrittenLines(str, predictions, labels, probabilities, info, secondLine, thirdLine));
      forall i :: 3 <= i < |lines| ==> FirstField(lines[i]) == LabelText(str, labels[i - 3])
  {
    var lines := WithBreaks(WrittenLines(str, predictions, labels, probabilities, info, secondLine, thirdLine));
    forall i | 3 <= i < |lines| ensures FirstField(lines[i]) == LabelText(str, labels[i - 3]) {
      WrittenLabel(str, isFloat, labels[i - 3], predictions[i - 3], RowOf(probabilities, i - 3));
    }
  }

  /** Two sequences of lines whose first fields from index 3 on are given labels compare by those labels. */
  lemma ComparisonByLabels(lines1: seq<string>, lines2: seq<string>, labels1: seq<string>, labels2: seq<string>)
    requires |lines1| == 3 + |labels1| && |lines2| == 3 + |labels2|
    requires forall i :: 3 <= i < |lines1| ==> FirstField(lines1[i]) == labels1[i - 3]
    requires forall i :: 3 <= i < |lines2| ==> FirstField(lines2[i]) == labels2[i - 3]
    ensures Comparison(lines1, lines2) == if |labels1| != |labels2| then Err(ValueError) else Ok(labels1 == labels2)
  {
    if |labels1| == |labels2| && SameLabels(lines1, lines2) {
      forall i | 0 <= i < |labels1| ensures labels1[i] == labels2[i] {
        assert FirstField(lines1[i + 3]) == FirstField(lines2[i + 3]);
      }
    }
  }

  /** The labels of a file as written. */
  function LabelTexts(str: Num -> string, labels: seq<Num>): (texts: seq<string>)
    ensures |texts| == |labels|
  {
    seq(|labels|, i requires 0 <= i < |labels| => LabelText(str, labels[i]))
  }

  /** Comparing the lines of two complete files compares their written labels. */
  lemma WrittenLinesCompare(
    str: Num -> string, isFloat: string -> bool,
    predictions1: seq<Num>, labels1: seq<Num>, probabilities1: Option<seq<seq<Num>>>, info1: RunInfo, second1: string, third1: string,
    predictions2: seq<Num>, labels2: seq<Num>, probabilities2: Option<seq<seq<Num>>>, info2: RunInfo, second2: string, third2: string)
    requires RendersParseably(str, isFloat)
    requires Completes(predictions1, labels1, probabilities1, info1, second1, third1)
    requires Completes(predictions2, labels2, probabilities2, info2, second2, third2)
    ensures Comparison(WithBreaks(WrittenLines(str, predictions1, labels1, probabilities1, info1, second1, third1)),
                       WithBreaks(WrittenLines(str, predictions2, labels2, probabilities2, info2, second2, third2)))
        == if |labels1| != |labels2| then Err(ValueError)
           else Ok(LabelTexts(str, labels1) == LabelTexts(str, labels2))
  {
    WrittenLinesLabels(str, isFloat, predictions1, labels1, probabilities1, info1, second1, third1);
    WrittenLinesLabels(str, isFloat, predictions2, labels2, probabilities2, info2, second2, third2);
    ComparisonByLabels(
      WithBreaks(WrittenLines(str, predictions1, labels1, probabilities1, info1, second1, third1)),
      WithBreaks(WrittenLines(str, predictions2, labels2, probabilities2, info2, second2, third2)),
      LabelTexts(str, labels1), LabelTexts(str, labels2));
  }

  /**
   * Comparing two written files: a different number of cases is a
   * ValueError, otherwise the answer is whether every case has the same
   * written label.
   */
  lemma WrittenFilesCompare(
    str: Num -> string, isFloat: string -> bool,
    predictions1: seq<Num>, labels1: seq<Num>, probabilities1: Option<seq<seq<Num>>>, info1: RunInfo, second1: string, third1: string,
    predictions2: seq<Num>, labels2: seq<Num>, probabilities2: Option<seq<seq<Num>>>, info2: RunInfo, second2: string, third2: string,
    before: DiskState)
    requires RendersParseably(str, isFloat)
    requires Completes(predictions1, labels1, probabilities1, info1, second1, third1)
    requires Completes(predictions2, labels2, probabilities2, info2, second2, third2)
    ensures var after1 := WriteResults(str, predictions1, labels1, probabilities1, info1, second1, third1, before).1;
      var after2 := WriteResults(str, predictions2, labels2, probabilities2, info2, second2, third2, before).1;
      WrittenPath(info1) in after1.files && WrittenPath(info2) in after2.files &&
      Comparison(ReadLines(after1.files[WrittenPath(info1)]), ReadLines(after2.files[WrittenPath(info2)]))
        == if |labels1| != |labels2| then Err(ValueError)
           else Ok(LabelTexts(str, labels1) == LabelTexts(str, labels2))
  {
    WrittenLinesCompare(str, isFloat, predictions1, labels1, probabilities1, info1, second1, third1,
                        predictions2, labels2, probabilities2, info2, second2, third2);
    WrittenFileLines(str, isFloat, predictions1, labels1, probabilities1, info1, second1, third1, before);
    WrittenFileLines(str, isFloat, predictions2, labels2, probabilities2, info2, second2, third2, before);
  }
}
