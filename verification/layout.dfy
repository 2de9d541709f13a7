/**
 * What the general writer promises about the file it produces: where it
 * goes, which splits it accepts, and the lines it holds.
 */
module Layout {
  import opened Outcomes
  import opened Text
  import opened Numbers
  import opened FileStore
  import opened LineChecks
  import opened Writer

  /** The split is matched without regard to case. */
  lemma NormaliseSplitIgnoresCase(s: string)
    ensures NormaliseSplit(Some(s)) == NormaliseSplit(Some(Lower(s)))
  {
    LowerIdempotent(s);
  }

  /** Only None and the two split names are accepted; the empty split is rejected. */
  lemma NormaliseSplitAccepts(split: Option<string>)
    ensures NormaliseSplit(split).Ok? <==> split.None? || Lower(split.value) in {"train", "test"}
    ensures NormaliseSplit(split).Ok? ==> NormaliseSplit(split).value in {"", "TRAIN", "TEST"}
    ensures NormaliseSplit(Some("")) == Err(ValueError)
  {
    assert Lower("") == "";
  }

  /**
   * An unknown split raises ValueError after the directory is made, before
   * the results file is opened: no file changes.
   */
  lemma UnknownSplitWritesNoFile(
    str: Num -> string, predictions: seq<Num>, labels: seq<Num>, probabilities: Option<seq<seq<Num>>>,
    info: RunInfo, secondLine: string, thirdLine: string, before: DiskState)
    requires |predictions| == |labels|
    requires NormaliseSplit(info.split).Err?
    ensures WriteResults(str, predictions, labels, probabilities, info, secondLine, thirdLine, before)
      == (Fail(ValueError), AfterMakeDirs(before, OutputDirectory(info)))
    ensures WriteResults(str, predictions, labels, probabilities, info, secondLine, thirdLine, before).1.files == before.files
  {
  }

  /** Unequal prediction and label counts raise IndexError before anything is touched. */
  lemma LengthMismatchTouchesNothing(
    str: Num -> string, predictions: seq<Num>, labels: seq<Num>, probabilities: Option<seq<seq<Num>>>,
    info: RunInfo, secondLine: string, thirdLine: string, before: DiskState)
    requires |predictions| != |labels|
    ensures WriteResults(str, predictions, labels, probabilities, info, secondLine, thirdLine, before) == (Fail(IndexError), before)
  {
  }

  lemma LowerWords()
    ensures Lower("") == ""
    ensures Lower("Results") == "results" && Lower("Resample") == "resample"
    ensures Lower("TRAIN") == "train" && Lower("TEST") == "test"
  {
    assert Lower("Results")[0] == 'r';
    assert Lower("Resample")[0] == 'r';
    assert Lower("TRAIN") == [LowerChar('T'), LowerChar('R'), LowerChar('A'), LowerChar('I'), LowerChar('N')];
    assert Lower("TEST") == [LowerChar('T'), LowerChar('E'), LowerChar('S'), LowerChar('T')];
  }

  /** Without a split the whole name is lower case: "results", "resample3". */
  lemma UnsplitFileNames(id: int)
    ensures ResultsFileName("", None) == "results"
    ensures ResultsFileName("", Some(id)) == "resample" + DecimalText(id)
  {
    LowerWords();
    assert "" + "Results" == "Results";
    assert "" + "Resample" + DecimalText(id) == "Resample" + DecimalText(id);
    LowerAppend("Resample", DecimalText(id));
    DecimalTextPlain(id);
  }

  /**
   * With a split, the split is lower-cased and the rest keeps its capitals:
   * "trainResample0", "testResults".
   */
  lemma SplitFileNames(id: int)
    ensures ResultsFileName("TRAIN", None) == "trainResults"
    ensures ResultsFileName("TRAIN", Some(id)) == "trainResample" + DecimalText(id)
    ensures ResultsFileName("TEST", None) == "testResults"
    ensures ResultsFileName("TEST", Some(id)) == "testResample" + DecimalText(id)
  {
    LowerWords();
  }

  /** The first line always has at least six fields, exactly six when none of its values holds a comma. */
  lemma FirstLineFieldCount(info: RunInfo, split: string)
    ensures |Fields(FirstLine(info, split))| >= 6
    ensures (forall i :: 0 <= i < 6 ==> ',' !in FirstLineFields(info, split)[i]) ==>
      Fields(FirstLine(info, split)) == FirstLineFields(info, split)
  {
    JoinFieldCount(FirstLineFields(info, split), ',');
    if forall i :: 0 <= i < 6 ==> ',' !in FirstLineFields(info, split)[i] {
      SplitJoin(FirstLineFields(info, split), ',');
    }
  }

  /** With a comma-free rendering, a case's line splits back into its fields. */
  lemma DataLineFields(str: Num -> string, isFloat: string -> bool, truth: Num, prediction: Num, row: Option<seq<Num>>)
    requires RendersParseably(str, isFloat)
    ensures Fields(DataLine(str, truth, prediction, row)) == DataFields(str, truth, prediction, row)
    ensures '\n' !in DataLine(str, truth, prediction, row)
  {
    var f := DataFields(str, truth, prediction, row);
    assert forall i :: 0 <= i < |f| ==> ',' !in f[i] && '\n' !in f[i];
    SplitJoin(f, ',');
    JoinAvoids(f, ',', '\n');
  }

  /** The values of the first line hold no line break. */
  predicate FirstLinePlain(info: RunInfo)
  {
    '\n' !in info.datasetName && '\n' !in info.estimatorName && '\n' !in info.timingType &&
    (info.firstLineComment.Some? ==> '\n' !in info.firstLineComment.value)
  }

  /** The path the general writer writes to once the split is accepted. */
  function WrittenPath(info: RunInfo): string
    requires NormaliseSplit(info.split).Ok?
  {
    ResultsFilePath(OutputDirectory(info), NormaliseSplit(info.split).value, info.resampleId)
  }

  /** The lines of a complete results file, without their breaks. */
  function WrittenLines(
    str: Num -> string, predictions: seq<Num>, labels: seq<Num>, probabilities: Option<seq<seq<Num>>>,
    info: RunInfo, secondLine: string, thirdLine: string): (lines: seq<string>)
    requires Covers(predictions, labels, probabilities, |predictions|) && NormaliseSplit(info.split).Ok?
    ensures |lines| == 3 + |predictions|
  {
    [FirstLine(info, NormaliseSplit(info.split).value), secondLine, thirdLine]
      + DataLines(str, predictions, labels, probabilities, |predictions|)
  }

  /**
   * A successful write holds the three header lines, then one line per case,
   * each ended by a break; read back, that is 3 + n lines, whenever the
   * header values hold no break.
   */
  lemma WrittenFileLines(
    str: Num -> string, isFloat: string -> bool, predictions: seq<Num>, labels: seq<Num>, probabilities: Option<seq<seq<Num>>>,
    info: RunInfo, secondLine: string, thirdLine: string, before: DiskState)
    requires RendersParseably(str, isFloat)
    requires |predictions| == |labels| && NormaliseSplit(info.split).Ok?
    requires probabilities.Some? ==> |probabilities.value| >= |predictions|
    requires FirstLinePlain(info) && '\n' !in secondLine && '\n' !in thirdLine
    ensures WriteResults(str, predictions, labels, probabilities, info, secondLine, thirdLine, before).0 == Pass
    ensures var after := WriteResults(str, predictions, labels, probabilities, info, secondLine, thirdLine, before).1;
      WrittenPath(info) in after.files &&
      ReadLines(after.files[WrittenPath(info)]) == WithBreaks(WrittenLines(str, predictions, labels, probabilities, info, secondLine, thirdLine)) &&
      |ReadLines(after.files[WrittenPath(info)])| == 3 + |predictions|
  {
    var split := NormaliseSplit(info.split).value;
    var fields := FirstLineFields(info, split);
    DecimalTextPlain(if info.resampleId.None? then 0 else info.resampleId.value);
    assert forall i :: 0 <= i < |fields| ==> '\n' !in fields[i];
    JoinAvoids(fields, ',', '\n');
    var data := DataLines(str, predictions, labels, probabilities, |predictions|);
    forall i | 0 <= i < |data| ensures '\n' !in data[i] {
      DataLineFields(str, isFloat, labels[i], predictions[i], RowOf(probabilities, i));
    }
    var lines := WrittenLines(str, predictions, labels, probabilities, info, secondLine, thirdLine);
    assert NoBreaks(lines);
    ReadTerminated(lines);
  }
}
