/**
 * `write_results_to_tsml_format`: the results file of one experiment. Line 1
 * names the dataset, the estimator, the split, the resample and the timing
 * unit; line 2 is free text about the estimator; line 3 is the estimator's summary
 * line; then one line per case holds the true label, the prediction and,
 * when given, the class probabilities.
 */
module Writer {
  import opened Outcomes
  import opened Text
  import opened Numbers
  import opened FileStore
  import opened LineChecks

  /** The arguments of the writer that decide where the file goes and what its first line says. */
  datatype RunInfo = RunInfo(
    estimatorName: string,
    datasetName: string,
    outputPath: string,
    fullPath: bool,
    split: Option<string>,
    resampleId: Option<int>,
    timingType: string,
    firstLineComment: Option<string>)

  /** The directory of the file: `output_path` as given, or the standard layout under it. */
  function OutputDirectory(info: RunInfo): string
  {
    if info.fullPath then info.outputPath
    else info.outputPath + "/" + info.estimatorName + "/Predictions/" + info.datasetName + "/"
  }

  /** None becomes "", any casing of "train" or "test" becomes "TRAIN" or "TEST", anything else is a ValueError. */
  function NormaliseSplit(split: Option<string>): Result<string>
  {
    if split.None? then Ok("")
    else if Lower(split.value) == "train" then Ok("TRAIN")
    else if Lower(split.value) == "test" then Ok("TEST")
    else Err(ValueError)
  }

  /** The file name without its extension. */
  function ResultsFileName(split: string, resampleId: Option<int>): string
  {
    var name :=
      if resampleId.None? then Lower(split) + "Results"
      else Lower(split) + "Resample" + DecimalText(resampleId.value);
    if split == "" then Lower(name) else name
  }

  function ResultsFilePath(dir: string, split: string, resampleId: Option<int>): string
  {
    dir + "/" + ResultsFileName(split, resampleId) + ".csv"
  }

  function FirstLineFields(info: RunInfo, split: string): seq<string>
  {
    [info.datasetName,
     info.estimatorName,
     if split == "" then "No split" else split,
     if info.resampleId.None? then "None" else DecimalText(info.resampleId.value),
     info.timingType,
     if info.firstLineComment.None? then "" else info.firstLineComment.value]
  }

  function FirstLine(info: RunInfo, split: string): string
  {
    Join(FirstLineFields(info, split), ',')
  }

  /** A NaN label is written as "?". */
  function LabelText(str: Num -> string, truth: Num): string
  {
    if truth.NaN? then "?" else str(truth)
  }

  function Render(str: Num -> string, row: seq<Num>): (texts: seq<string>)
    ensures |texts| == |row|
  {
    seq(|row|, i requires 0 <= i < |row| => str(row[i]))
  }

  /** The fields of one case's line: label, prediction, then an empty field and the probabilities when given. */
  function DataFields(str: Num -> string, truth: Num, prediction: Num, row: Option<seq<Num>>): seq<string>
  {
    [LabelText(str, truth), str(prediction)] + (if row.Some? then [""] + Render(str, row.value) else [])
  }

  function DataLine(str: Num -> string, truth: Num, prediction: Num, row: Option<seq<Num>>): string
  {
    Join(DataFields(str, truth, prediction, row), ',')
  }

  function RowOf(probabilities: Option<seq<seq<Num>>>, i: nat): Option<seq<Num>>
    requires probabilities.Some? ==> i < |probabilities.value|
  {
    if probabilities.None? then None else Some(probabilities.value[i])
  }

  /** Whether the first `m` cases can be written: every argument they read is there. */
  predicate Covers(predictions: seq<Num>, labels: seq<Num>, probabilities: Option<seq<seq<Num>>>, m: nat)
  {
    m <= |predictions| && m <= |labels| && (probabilities.Some? ==> m <= |probabilities.value|)
  }

  /** The lines of the first `m` cases. */
  function DataLines(str: Num -> string, predictions: seq<Num>, labels: seq<Num>, probabilities: Option<seq<seq<Num>>>, m: nat): (lines: seq<string>)
    requires Covers(predictions, labels, probabilities, m)
    ensures |lines| == m
  {
    seq(m, i requires 0 <= i < m => DataLine(str, labels[i], predictions[i], RowOf(probabilities, i)))
  }

  lemma DataLinesSnoc(str: Num -> string, predictions: seq<Num>, labels: seq<Num>, probabilities: Option<seq<seq<Num>>>, m: nat)
    requires Covers(predictions, labels, probabilities, m + 1)
    ensures DataLines(str, predictions, labels, probabilities, m + 1)
      == DataLines(str, predictions, labels, probabilities, m) + [DataLine(str, labels[m], predictions[m], RowOf(probabilities, m))]
  {
  }

  /**
   * How writing the cases ends and what the file then holds, given its
   * three header lines: every case line in turn; fewer probability rows than
   * predictions raise IndexError in the middle of the line of the first case
   * without a row, after its label, prediction and the comma that opens the
   * probabilities.
   */
  function WrittenText(
    str: Num -> string, predictions: seq<Num>, labels: seq<Num>, probabilities: Option<seq<seq<Num>>>,
    header: seq<string>): (Outcome, string)
    requires |predictions| == |labels|
  {
    if probabilities.Some? && |probabilities.value| < |predictions| then
      var m := |probabilities.value|;
      (Fail(IndexError),
       Terminated(header + DataLines(str, predictions, labels, probabilities, m))
         + LabelText(str, labels[m]) + "," + str(predictions[m]) + ",")
    else
      (Pass, Terminated(header + DataLines(str, predictions, labels, probabilities, |predictions|)))
  }

  /**
   * What `write_results_to_tsml_format` does to the disk and how it ends.
   * Unequal prediction and label counts raise IndexError before anything is
   * touched; an unknown split raises ValueError after the directory is made
   * and before the file is opened; otherwise the file is created and written
   * as WrittenText says.
   */
  function WriteResults(
    str: Num -> string, predictions: seq<Num>, labels: seq<Num>, probabilities: Option<seq<seq<Num>>>,
    info: RunInfo, secondLine: string, thirdLine: string, before: DiskState): (Outcome, DiskState)
  {
    if |predictions| != |labels| then (Fail(IndexError), before)
    else
      var dir := OutputDirectory(info);
      var made := AfterMakeDirs(before, dir);
      match NormaliseSplit(info.split)
      case Err(e) => (Fail(e), made)
      case Ok(split) =>
        var path := ResultsFilePath(dir, split, info.resampleId);
        var written := WrittenText(str, predictions, labels, probabilities, [FirstLine(info, split), secondLine, thirdLine]);
        (written.0, made.(files := made.files[path := written.1]))
  }

  /** `write_results_to_tsml_format`, writing the file piece by piece as the source does. */
  method WriteResultsToTsmlFormat(
    disk: Disk, str: Num -> string, predictions: seq<Num>, labels: seq<Num>, probabilities: Option<seq<seq<Num>>>,
    info: RunInfo, secondLine: string, thirdLine: string) returns (r: Outcome)
    modifies disk
    ensures (r, disk.State()) == WriteResults(str, predictions, labels, probabilities, info, secondLine, thirdLine, old(disk.State()))
  {
    if |predictions| != |labels| {
      return Fail(IndexError);
    }
    var dir := OutputDirectory(info);
    disk.MakeDirs(dir);
    var split := NormaliseSplit(info.split);
    if split.Err? {
      return Fail(split.error);
    }
    var path := ResultsFilePath(dir, split.value, info.resampleId);
    var header := [FirstLine(info, split.value), secondLine, thirdLine];
    ghost var made := disk.files;
    WriteHeader(disk, path, header);
    r := WriteCases(disk, path, str, predictions, labels, probabilities, header);
    UpdateTwice(made, path, Terminated(header), WrittenText(str, predictions, labels, probabilities, header).1);
  }

  /** `open(path, "w")`, then the three header lines, each followed by a break. */
  method WriteHeader(disk: Disk, path: string, header: seq<string>)
    requires |header| == 3
    modifies disk
    ensures disk.dirs == old(disk.dirs)
    ensures disk.files == old(disk.files)[path := Terminated(header)]
  {
    ghost var made := disk.files;
    disk.Create(path);
    disk.Write(path, header[0] + "\n");
    assert "" + (header[0] + "\n") == header[0] + "\n";
    UpdateTwice(made, path, "", header[0] + "\n");
    ghost var text := header[0] + "\n";
    assert disk.files == made[path := text];
    disk.Write(path, header[1] + "\n");
    UpdateTwice(made, path, text, text + (header[1] + "\n"));
    text := text + (header[1] + "\n");
    assert disk.files == made[path := text];
    disk.Write(path, header[2] + "\n");
    UpdateTwice(made, path, text, text + (header[2] + "\n"));
    text := text + (header[2] + "\n");
    assert disk.files == made[path := text];
    assert [header[0], header[1], header[2]] == header;
    TerminatedThree(header[0], header[1], header[2]);
    assert text == header[0] + "\n" + header[1] + "\n" + header[2] + "\n";
    assert text == Terminated(header);
  }

  /** The loop over the cases, on a file that holds the three header lines. */
  method WriteCases(
    disk: Disk, path: string, str: Num -> string, predictions: seq<Num>, labels: seq<Num>,
    probabilities: Option<seq<seq<Num>>>, header: seq<string>) returns (r: Outcome)
    requires |predictions| == |labels|
    requires path in disk.files && disk.files[path] == Terminated(header)
    modifies disk
    ensures disk.dirs == old(disk.dirs)
    ensures (r, disk.files) == (WrittenText(str, predictions, labels, probabilities, header).0,
                                old(disk.files)[path := WrittenText(str, predictions, labels, probabilities, header).1])
  {
    ghost var before := disk.files;
    ghost var text := Terminated(header);
    assert header + DataLines(str, predictions, labels, probabilities, 0) == header;
    assert before == before[path := text];
    for i := 0 to |predictions|
      invariant probabilities.Some? ==> i <= |probabilities.value|
      invariant disk.dirs == old(disk.dirs)
      invariant disk.files == before[path := text]
      invariant text == Terminated(header + DataLines(str, predictions, labels, probabilities, i))
    {
      if probabilities.Some? && i >= |probabilities.value| {
        // the line is begun, then reading the missing probability row raises
        disk.Write(path, LabelText(str, labels[i]) + "," + str(predictions[i]));
        UpdateTwice(before, path, text, text + (LabelText(str, labels[i]) + "," + str(predictions[i])));
        text := text + (LabelText(str, labels[i]) + "," + str(predictions[i]));
        disk.Write(path, ",");
        UpdateTwice(before, path, text, text + ",");
        text := text + ",";
        assert i == |probabilities.value|;
        assert text == WrittenText(str, predictions, labels, probabilities, header).1;
        return Fail(IndexError);
      }
      ghost var lines := header + DataLines(str, predictions, labels, probabilities, i);
      var line := DataLine(str, labels[i], predictions[i], RowOf(probabilities, i));
      WriteDataLine(disk, path, str, labels[i], predictions[i], RowOf(probabilities, i));
      UpdateTwice(before, path, text, text + line + "\n");
      text := text + line + "\n";
      DataLinesSnoc(str, predictions, labels, probabilities, i);
      assert header + DataLines(str, predictions, labels, probabilities, i + 1) == lines + [line];
      TerminatedSnoc(lines, line);
    }
    return Pass;
  }

  /** The writes of one case: label and prediction, then the probabilities each after a comma, then the break. */
  method WriteDataLine(disk: Disk, path: string, str: Num -> string, truth: Num, prediction: Num, row: Option<seq<Num>>)
    requires path in disk.files
    modifies disk
    ensures disk.dirs == old(disk.dirs)
    ensures disk.files == old(disk.files)[path := old(disk.files)[path] + DataLine(str, truth, prediction, row) + "\n"]
  {
    ghost var before := disk.files;
    var labelText := LabelText(str, truth);
    disk.Write(path, labelText + "," + str(prediction));
    ghost var text := before[path] + (labelText + "," + str(prediction));
    if row.Some? {
      disk.Write(path, ",");
      UpdateTwice(before, path, text, text + ",");
      ghost var start := [labelText, str(prediction), ""];
      JoinThree(labelText, str(prediction), "", ',');
      assert text + "," == before[path] + Join(start, ',');
      WriteProbabilities(disk, path, str, row.value, before[path], start);
      UpdateTwice(before, path, text + ",", before[path] + Join(start + Render(str, row.value), ','));
      text := before[path] + Join(start + Render(str, row.value), ',');
      assert DataFields(str, truth, prediction, row) == start + Render(str, row.value);
    } else {
      assert DataFields(str, truth, prediction, row) == [labelText, str(prediction)];
      assert [labelText, str(prediction)][1..] == [str(prediction)];
      assert Join([labelText, str(prediction)], ',') == labelText + [','] + str(prediction);
    }
    assert text == before[path] + DataLine(str, truth, prediction, row);
    disk.Write(path, "\n");
    UpdateTwice(before, path, text, text + "\n");
  }

  /** `for j in predicted_probabilities[i]: file.write(f",{j}")`, after the fields `start` of the line. */
  method WriteProbabilities(disk: Disk, path: string, str: Num -> string, values: seq<Num>, ghost prefix: string, ghost start: seq<string>)
    requires |start| >= 1
    requires path in disk.files && disk.files[path] == prefix + Join(start, ',')
    modifies disk
    ensures disk.dirs == old(disk.dirs)
    ensures disk.files == old(disk.files)[path := prefix + Join(start + Render(str, values), ',')]
  {
    ghost var before := disk.files;
    ghost var text := disk.files[path];
    assert start + Render(str, values[..0]) == start;
    assert before == before[path := text];
    for j := 0 to |values|
      invariant disk.dirs == old(disk.dirs)
      invariant disk.files == before[path := text]
      invariant text == prefix + Join(start + Render(str, values[..j]), ',')
    {
      disk.Write(path, "," + str(values[j]));
      UpdateTwice(before, path, text, text + ("," + str(values[j])));
      text := text + ("," + str(values[j]));
      assert start + Render(str, values[..j + 1]) == start + Render(str, values[..j]) + [str(values[j])];
      JoinSnoc(start + Render(str, values[..j]), str(values[j]), ',');
    }
    assert values[..|values|] == values;
  }
}
