# tsml results files, in Dafny

A Dafny model of the results-file utilities of tsml-eval
(`tsml_eval/utils/experiments.py`). An experiment writes one results file. The file holds:

- a first line naming the dataset, the estimator, the split, the resample and the timing unit;
- a free-text second line describing the estimator;
- a third line of summary values whose layout depends on the kind of estimator (classifier, regressor or clusterer);
- one line per test case, holding the true label, the prediction and optionally the class probabilities.

The model covers:

- **Writing** (`writer.dfy`, `tasks.dfy`). `write_results_to_tsml_format` and its three task wrappers act on a `Disk` object, a set of directories plus a map from path to file text. Each method is proved equal to a pure effect function (`WriteResults`, `ClassificationResults`, …) that gives the outcome and the new disk.
- **Checking** (`checks.dfy`, `validate.dfy`). These are the `_check_*` line predicates and `validate_results_file`.
- **Repair** (`repair.dfy`, `repairproofs.dfy`). `fix_broken_second_line` is modelled as a method with its `while` scan and its merge loop, proved equal to the effect function `FixOutcome`.
- **Comparison** (`compare.dfy`). This is `compare_result_file_resample`.
- **Resampling** (`resample.dfy`, `stratified.dfy`).
  - `resample_data` is a function of a row permutation.
  - `stratified_resample_data` is a method with its per-class loop, proved equal to the specification function `StratifiedResampleData`.
- **Supporting modules**:
  - `text.dfy` models `str.split`, `str.join`, `str.replace`, `str.lower` and `readlines()`;
  - `numbers.dfy` models integer rendering;
  - `filestore.dfy` models the disk;
  - `layout.dfy`, `taskfiles.dfy` and `roundtrip.dfy` hold the properties that relate the writer, the validator, the repair and the comparator.

How things are represented:

- **Files and lines.** A file is its text. Reading it gives `ReadLines(text)`, the lines as `readlines()` returns them: every line keeps its `"\n"` except possibly the last.
- **Exceptions.** The exceptions a call can raise are values of `Outcomes.Error`.
- **Numbers.**
  - Number parsing (`float()`) and rendering (`str()` and f-strings) are parameters: `isFloat: string -> bool` and `str: Num -> string`.
  - `FloatLike` is what the model assumes of parsing: it rejects `""` and `"?"`, it ignores one trailing line break, and it accepts rendered integers.
  - `RendersParseably` is what it assumes of rendering: the text holds no comma and no break, and it parses.
- **Definitions.** `Range`, `Permute`, `Zip` and `TrainCounts` are plain definitions (the row ids, picking by ids, pairing rows with labels, and the train count of each class); what they mean for the resamplers is stated by `PermuteMultiset`, `ZipPermute`, `FitsPlan` and the `Stratified` lemmas.
- **Randomness.** `DataFrame.sample` and `RandomState.shuffle` become permutations passed in as arguments: one over all rows, or one per class.

Two details of the source are modelled as written.

- **The chained length check.** `a != b != c` in the classification and clustering writers is Python's `a != b and b != c`. A mismatch it lets through is caught by the general writer's own length check (`ChainedCheckDefers`, `ClassificationSizeMismatch`).
- **The unreachable `ValueError` in `fix_broken_second_line`.** That branch cannot be reached, because the line at `line_count` has just been read. A scan that finds no third line ends in `IndexError`, raised when the loop condition reads past the last line (`FindThirdLine`, `NoThirdLineWritesNothing`).

## Model

| member | source | states |
|---|---|---|
| LineChecks.Fields | tsml_eval/utils/experiments.py:746 | `line.split(",")` always gives at least one field |
| LineChecks.CheckFirstLine | tsml_eval/utils/experiments.py:745-747 | the first line is accepted iff it holds at least four commas, that is, at least five fields |
| LineChecks.CheckSecondLine | tsml_eval/utils/experiments.py:750-752 | the second-line check accepts every line |
| LineChecks.AllFloats | tsml_eval/utils/experiments.py:777-783 | the float loop passes iff every listed field parses as a float |
| LineChecks.CheckLineLengthAndFloats | tsml_eval/utils/experiments.py:773-783 | false unless the line has exactly `length` fields; then whether every listed field parses |
| LineChecks.CheckClassificationThirdLine | tsml_eval/utils/experiments.py:755-758 | 9 fields, with fields 0-5, 7 and 8 parsing as floats |
| LineChecks.CheckRegressionThirdLine | tsml_eval/utils/experiments.py:761-764 | 8 fields, with fields 0-4, 6 and 7 parsing as floats |
| LineChecks.CheckClusteringThirdLine | tsml_eval/utils/experiments.py:767-770 | 7 fields, with fields 0-6 parsing as floats |
| LineChecks.CheckResultsLine | tsml_eval/utils/experiments.py:786-811 | at least 2 fields with fields 0 and 1 parsing; with probabilities at least 5 fields, field 2 empty and fields 3 and 4 parsing; without, exactly 2 fields |
| LineChecks.ThirdLinesExclusive | tsml_eval/utils/experiments.py:755-775 | no line matches two of the classification (9 fields), regression (8) and clustering (7) layouts |
| LineChecks.ResultsLineIsNotThirdLine | tsml_eval/utils/experiments.py:786-811 | a line that passes the data-line check matches no third-line layout, with or without probabilities |
| LineChecks.QuestionMarkLabelRejected | tsml_eval/utils/experiments.py:792-796 | a line whose label is `?` fails the data-line check |
| LineChecks.FieldsWithBreak | tsml_eval/utils/experiments.py:746 | a trailing line break only extends the last field |
| LineChecks.AllFloatsWithBreak | tsml_eval/utils/experiments.py:777-783 | the float loop gives the same answer on a line with its break as without it |
| LineChecks.HeaderChecksIgnoreBreak | tsml_eval/utils/experiments.py:745-770 | the first-line check and each third-line check give the same answer on a line read with its break |
| LineChecks.ResultsLineIgnoresBreak | tsml_eval/utils/experiments.py:786-811 | the data-line check gives the same answer on a line read with its break |
| Validate.Validation | tsml_eval/utils/experiments.py:676-695 | IndexError iff there are no lines, or the first line passes and fewer than three lines exist; otherwise true iff the file is well formed: the header checks pass, the third line matches a layout, and every data line passes with probabilities iff that layout is classification or clustering |
| Validate.ValidateResultsFile | tsml_eval/utils/experiments.py:657-695 | `validate_results_file` on a file's text ends as `Validation` of its read lines |
| Validate.CheckDataLines | tsml_eval/utils/experiments.py:691-695 | the early-return loop over the lines from index 3 is true iff every one of them passes the data-line check |
| Compare.CompareResultFileResample | tsml_eval/utils/experiments.py:814-845 | ValueError iff the two files have different line counts; otherwise true iff every line from index 3 starts with the same field in both files |
| Compare.Comparison | tsml_eval/utils/experiments.py:838-845 | ValueError when the line counts differ, otherwise whether the first fields of the lines from index 3 on agree |
| Compare.ComparisonSymmetric | tsml_eval/utils/experiments.py:838-845 | swapping the two files gives the same result |
| Compare.ComparisonReflexive | tsml_eval/utils/experiments.py:838-845 | a file compared with itself gives true |
| Compare.ComparisonIgnoresHeaders | tsml_eval/utils/experiments.py:841-843 | replacing the three header lines of either file does not change the result |
| Compare.FirstFieldOf | tsml_eval/utils/experiments.py:842 | the first field of `head + "," + rest` is `head` when `head` holds no comma |
| FileStore.AfterMakeDirs | tsml_eval/utils/experiments.py:570-573 | `os.makedirs`, with an existing directory ignored, changes no file; the directory set gains the path as given and nothing else (see Left out) |
| FileStore.DirName | tsml_eval/utils/experiments.py:737 | `os.path.dirname` is a prefix of the path, and empty for a path with no slash |
| FileStore.Disk.MakeDirs | tsml_eval/utils/experiments.py:570-573 | the disk afterwards is `AfterMakeDirs` of the disk before |
| FileStore.Disk.Create | tsml_eval/utils/experiments.py:591 | opening with `"w"` makes the file empty and changes nothing else |
| FileStore.Disk.Write | tsml_eval/utils/experiments.py:602 | a write appends the text to that file only |
| Writer.WriteResultsToTsmlFormat | tsml_eval/utils/experiments.py:503-636 | the outcome and the disk afterwards are those of `WriteResults` |
| Writer.WriteResults | tsml_eval/utils/experiments.py:560-636 | IndexError with the disk untouched on unequal counts; otherwise the directory is made, an unknown split is ValueError, and else the file at the named path holds the header lines and the case lines as `WrittenText` gives them |
| Writer.OutputDirectory | tsml_eval/utils/experiments.py:566-568 | `output_path` itself with `full_path`, otherwise `output_path/estimator/Predictions/dataset/` |
| Writer.NormaliseSplit | tsml_eval/utils/experiments.py:575-582 | None becomes `""`, any casing of train or test becomes `TRAIN` or `TEST`, anything else is ValueError |
| Writer.ResultsFileName | tsml_eval/utils/experiments.py:584-589 | the lower-cased split then `Results`, or `Resample` and the id; the whole name lower-cased when there is no split |
| Writer.LabelText | tsml_eval/utils/experiments.py:627 | a NaN label is written as `?`, any other label as it renders |
| Writer.WriteHeader | tsml_eval/utils/experiments.py:591-610 | the file holds exactly the three header lines, each ended by a break |
| Writer.WriteCases | tsml_eval/utils/experiments.py:626-634 | writing the cases ends as `WrittenText` says: every case line in turn, or IndexError in the middle of the first case that has no probability row |
| Writer.WriteDataLine | tsml_eval/utils/experiments.py:627-634 | one case appends its data line and a break |
| Writer.WriteProbabilities | tsml_eval/utils/experiments.py:630-633 | the inner loop appends `,p` for every probability, extending the comma-joined line |
| Writer.DataLinesSnoc | tsml_eval/utils/experiments.py:626-634 | the lines of the first m+1 cases are those of the first m plus the line of case m |
| Writer.Render | tsml_eval/utils/experiments.py:632-633 | one rendered text per probability |
| Layout.LengthMismatchTouchesNothing | tsml_eval/utils/experiments.py:560-564 | unequal prediction and label counts raise IndexError with the disk untouched |
| Layout.UnknownSplitWritesNoFile | tsml_eval/utils/experiments.py:566-582 | an unknown split raises ValueError after the directory is made; no file changes |
| Layout.NormaliseSplitAccepts | tsml_eval/utils/experiments.py:575-582 | the split is accepted iff it is None or lower-cases to `train` or `test`; it normalises to `""`, `TRAIN` or `TEST`; the empty string is rejected |
| Layout.NormaliseSplitIgnoresCase | tsml_eval/utils/experiments.py:577-580 | a split and its lower-cased form normalise alike |
| Layout.UnsplitFileNames | tsml_eval/utils/experiments.py:584-589 | with no split the name is `results`, or `resample<id>` |
| Layout.SplitFileNames | tsml_eval/utils/experiments.py:584-589 | with a split the names are `trainResults`, `trainResample<id>`, `testResults` and `testResample<id>` |
| Layout.LowerWords | tsml_eval/utils/experiments.py:577-589 | the lower-casing the file names use, on the words they use |
| Layout.FirstLineFieldCount | tsml_eval/utils/experiments.py:594-601 | the first line has at least six fields, and exactly its six values when none of them holds a comma |
| Layout.DataLineFields | tsml_eval/utils/experiments.py:626-634 | a case line splits back into label, prediction and, with probabilities, an empty field and the probabilities; it holds no break |
| Layout.WrittenLines | tsml_eval/utils/experiments.py:594-634 | a complete file has 3 + n lines |
| Layout.WrittenFileLines | tsml_eval/utils/experiments.py:560-636 | with break-free header values the write succeeds, and the file reads back as the three header lines and one line per case, 3 + n in all |
| Numbers.DecimalText | tsml_eval/utils/experiments.py:587 | an integer renders as a minus sign exactly when it is negative, followed by decimal digits only |
| Numbers.Digits | tsml_eval/utils/experiments.py:587 | the digits of a natural number are decimal digits with no leading zero |
| Numbers.DigitsValueOf | tsml_eval/utils/experiments.py:587 | the digits read back as the number they render |
| Numbers.DecimalTextRoundTrip | tsml_eval/utils/experiments.py:587 | an integer's rendering reads back as that integer, so distinct resample ids and class counts render differently |
| Numbers.DecimalTextPlain | tsml_eval/utils/experiments.py:587-598 | a rendered integer holds no comma and no break, and lower-casing leaves it unchanged |
| Tasks.WriteClassificationResults | tsml_eval/utils/experiments.py:156-281 | the outcome and the disk afterwards are those of `ClassificationResults`: the chained size check, the class-count check, then the general writer with the nine-field summary line |
| Tasks.WriteRegressionResults | tsml_eval/utils/experiments.py:283-386 | the outcome and the disk afterwards are those of `RegressionResults`: the general writer with the eight-field summary line and no probabilities |
| Tasks.WriteClusteringResults | tsml_eval/utils/experiments.py:389-500 | the outcome and the disk afterwards are those of `ClusteringResults`: the chained size check, the cluster-count check, then the general writer with the seven-field summary line |
| Tasks.ClassificationResults | tsml_eval/utils/experiments.py:241-281 | IndexError with the disk untouched when the chained size check or the class-count check fails; otherwise the general writer with the probabilities and the nine-field summary line |
| Tasks.RegressionResults | tsml_eval/utils/experiments.py:362-386 | the general writer with no probabilities and the eight-field summary line |
| Tasks.ClusteringResults | tsml_eval/utils/experiments.py:464-499 | IndexError with the disk untouched when the chained size check or the cluster-count check fails; otherwise the general writer with the probabilities and the seven-field summary line |
| Tasks.ClassificationSizeMismatch | tsml_eval/utils/experiments.py:242-252 | any disagreement among the prediction, probability-row and label counts ends in IndexError with the disk untouched |
| Tasks.ClusteringSizeMismatch | tsml_eval/utils/experiments.py:464-474 | the same for the clustering writer |
| Tasks.ChainedCheckDefers | tsml_eval/utils/experiments.py:242-246 | a label count that differs from two equal others passes the chained check; the general writer then decides |
| TaskFiles.PlainFieldsLine | tsml_eval/utils/experiments.py:254-264 | comma- and break-free values joined by commas split back into the same values |
| TaskFiles.ClassificationThirdLineLayout | tsml_eval/utils/experiments.py:254-264 | the classification summary line has 9 fields and the classification layout, so its file expects probabilities |
| TaskFiles.RegressionThirdLineLayout | tsml_eval/utils/experiments.py:362-371 | the regression summary line has 8 fields and the regression layout, so its file expects no probabilities |
| TaskFiles.ClusteringThirdLineLayout | tsml_eval/utils/experiments.py:476-484 | the clustering summary line has 7 fields and the clustering layout, so its file expects probabilities |
| TaskFiles.ClassificationFileValidates | tsml_eval/utils/experiments.py:241-280 | a classification file with numeric labels, at least two probability columns, sizes that agree and a consistent class count is written and validates |
| TaskFiles.RegressionFileValidates | tsml_eval/utils/experiments.py:362-386 | a regression file with numeric labels and as many predictions as labels is written and validates |
| TaskFiles.ClusteringFileValidates | tsml_eval/utils/experiments.py:464-499 | a clustering file with numeric labels, at least two probability columns, sizes that agree and a consistent cluster count is written and validates |
| TaskFiles.SingleClassFileRejected | tsml_eval/utils/experiments.py:798-800 | a classification file written with one probability column is written but fails validation |
| RoundTrip.DataLineStartsWithLabel | tsml_eval/utils/experiments.py:627-628 | a case line is its label text, a comma and its other fields |
| RoundTrip.DataLineAccepted | tsml_eval/utils/experiments.py:786-811 | the line of a case with a numeric label passes the data-line check, with probabilities when the row has at least two |
| RoundTrip.ShortRowRejected | tsml_eval/utils/experiments.py:798-800 | a case line with fewer than two probabilities fails the check with probabilities |
| RoundTrip.NaNLabelLineRejected | tsml_eval/utils/experiments.py:627 | a case with a NaN label is written as `?` and its line fails the data-line check |
| RoundTrip.WrittenLabel | tsml_eval/utils/experiments.py:627-628 | the first field of a written case line, as read, is the case's label text |
| RoundTrip.DataLinesWithBreaks | tsml_eval/utils/experiments.py:691-693 | data lines that pass still pass when read with their breaks |
| RoundTrip.HeadersWithBreaks | tsml_eval/utils/experiments.py:679-689 | header lines that pass still pass when read with their breaks, and imply the same probability setting |
| RoundTrip.TerminatedLinesValidate | tsml_eval/utils/experiments.py:676-695 | well-formed lines, written one per line and read back, validate |
| RoundTrip.WrittenLineAt | tsml_eval/utils/experiments.py:594-634 | line 0 is the first line, lines 1 and 2 are the given header lines, and line 3 + k is case k |
| RoundTrip.WrittenLinesWellFormed | tsml_eval/utils/experiments.py:594-634 | the writer's lines are well formed under the writing conditions |
| RoundTrip.WrittenDataLineValid | tsml_eval/utils/experiments.py:626-634 | each written case line passes the check that its third line asks for |
| RoundTrip.WrittenDataLinesValid | tsml_eval/utils/experiments.py:626-634 | all written case lines pass |
| RoundTrip.WrittenFileValidates | tsml_eval/utils/experiments.py:503-636 | under the writing conditions the write succeeds and the file validates |
| RoundTrip.FailingLineRejected | tsml_eval/utils/experiments.py:691-693 | one failing data line makes validation fail |
| RoundTrip.FailingWrittenLine | tsml_eval/utils/experiments.py:626-634 | one failing written case line makes the written lines fail validation |
| RoundTrip.FailingLineRejectsFile | tsml_eval/utils/experiments.py:626-634 | the same for the file on disk |
| RoundTrip.WrittenNaNLabelRejected | tsml_eval/utils/experiments.py:624-627 | a written file with a NaN label fails validation |
| RoundTrip.WrittenShortRowRejected | tsml_eval/utils/experiments.py:630-633 | a written file whose layout expects probabilities and that has a row of fewer than two fails validation |
| RoundTrip.WrittenLinesLabels | tsml_eval/utils/experiments.py:627-628 | the first field of line 3 + i, as read, is the label text of case i |
| RoundTrip.ComparisonByLabels | tsml_eval/utils/experiments.py:838-845 | for lines whose data lines start with given labels, the comparison is ValueError on different counts and otherwise label-sequence equality |
| RoundTrip.LabelTexts | tsml_eval/utils/experiments.py:627 | one label text per case |
| RoundTrip.WrittenLinesCompare | tsml_eval/utils/experiments.py:838-845 | comparing two writers' line sequences compares their written labels |
| RoundTrip.WrittenFilesCompare | tsml_eval/utils/experiments.py:814-845 | comparing two written files gives ValueError on different case counts, and otherwise whether every case has the same written label |
| Repair.Flatten | tsml_eval/utils/experiments.py:726-728 | the line with every `\n` and `\r` replaced by a space: same length, no break left |
| Repair.Flattened | tsml_eval/utils/experiments.py:727-728 | one flattened line per line |
| Repair.ThirdLineIndex | tsml_eval/utils/experiments.py:715-723 | the scan from index 2 finds the first line in a third-line layout, or none |
| Repair.ThirdLineIndexIs | tsml_eval/utils/experiments.py:715-723 | the scan ends at k whenever k is the first matching line |
| Repair.FindThirdLine | tsml_eval/utils/experiments.py:715-723 | the `while` loop returns the scan's index, or none when it reads past the end |
| Repair.MergeSecondLine | tsml_eval/utils/experiments.py:725-730 | the rewrite gives `Repaired`: line 0, one merged line, then the lines from k on |
| Repair.FixBrokenSecondLine | tsml_eval/utils/experiments.py:698-742 | the outcome and the disk afterwards are those of `FixOutcome` |
| Repair.FixOutcome | tsml_eval/utils/experiments.py:712-742 | FileNotFoundError for a missing file; IndexError with nothing written when no line from index 2 is in a layout; nothing written when the third line is in place and there is no save path; otherwise the directory of the target is made and the target holds the repaired lines |
| Repair.NoThirdLineWritesNothing | tsml_eval/utils/experiments.py:715-723 | with no matching line the repair raises IndexError and the disk is untouched |
| Repair.RepairedShape | tsml_eval/utils/experiments.py:725-730 | after a merge, line 0 and the lines from k on are kept, and the third line sits at index 2 |
| Repair.MergedIsLine | tsml_eval/utils/experiments.py:726-729 | the merged second line holds one break, at its end |
| Repair.RepairedLineShaped | tsml_eval/utils/experiments.py:725-730 | the repaired lines are still lines as `readlines()` gives them |
| Repair.RepairIdempotent | tsml_eval/utils/experiments.py:698-742 | repairing the repaired file in place succeeds and changes nothing |
| Repair.RepairInPlace | tsml_eval/utils/experiments.py:725-742 | an in-place repair replaces the file's text with the repaired lines joined |
| Repair.RepairInPlaceWrites | tsml_eval/utils/experiments.py:725-742 | the same, for a known text, third line and repaired text |
| Repair.SoundFileUntouched | tsml_eval/utils/experiments.py:732 | a file whose third line is in place is not written when there is no save path |
| Repair.SaveCopiesSoundFile | tsml_eval/utils/experiments.py:732-742 | such a file, given a save path, is copied there unchanged |
| RepairProofs.BrokenFileText | tsml_eval/utils/experiments.py:607 | a second line written with breaks in it is the same text as its pieces written as lines |
| RepairProofs.BrokenFileLines | tsml_eval/utils/experiments.py:712-713 | such a file reads back as the first line, the pieces, then the other lines |
| RepairProofs.BrokenFileThirdLine | tsml_eval/utils/experiments.py:715-723 | the scan skips the pieces and stops at the written third line |
| RepairProofs.PiecesAreNotThirdLines | tsml_eval/utils/experiments.py:716-720 | pieces in no layout stay in no layout when read with their breaks |
| RepairProofs.BrokenPiecesFlattened | tsml_eval/utils/experiments.py:726-729 | all pieces but the last flatten to the piece and a space, and the last keeps its break |
| RepairProofs.BrokenFileMerged | tsml_eval/utils/experiments.py:726-729 | the merged line is the second line with its breaks as spaces, ended by one break |
| RepairProofs.BrokenFileRepaired | tsml_eval/utils/experiments.py:725-730 | the repaired lines are the original lines with the second line's breaks as spaces |
| RepairProofs.BrokenFileRepairedText | tsml_eval/utils/experiments.py:741-742 | the same for the text written out |
| RepairProofs.RepairRecoversLines | tsml_eval/utils/experiments.py:712-742 | for a file whose second line was written with breaks, the scan finds the third line and the repair gives the file with those breaks as spaces |
| RepairProofs.BrokenLinesRepaired | tsml_eval/utils/experiments.py:715-730 | the same, stated on the read lines |
| RepairProofs.RepairRecoversSecondLine | tsml_eval/utils/experiments.py:698-742 | the in-place repair of such a file succeeds and leaves that file on disk |
| RepairProofs.WrittenFileNeedsNoRepair | tsml_eval/utils/experiments.py:602-610 | a file the writer produced with break-free headers and a third line in a layout is left untouched by an in-place repair |
| Resample.PermuteMultiset | tsml_eval/utils/experiments.py:61 | a permutation of all row ids keeps the rows as a multiset |
| Resample.ZipPermute | tsml_eval/utils/experiments.py:58-65 | shuffling the data and the targets by one permutation keeps every row beside its own label |
| Resample.ResampleData | tsml_eval/utils/experiments.py:54-77 | ValueError iff the data and label counts differ (the target column does not fit) |
| Resample.ResampleDataKeepsCases | tsml_eval/utils/experiments.py:54-77 | the new train and test sets keep their sizes; the labels are a permutation of the old ones; every row keeps its label |
| Stratified.Unique | tsml_eval/utils/experiments.py:113-114 | `np.unique` gives the classes strictly ascending, the same set as the labels |
| Stratified.SameClassesSameList | tsml_eval/utils/experiments.py:113-117 | two strictly ascending lists with the same members are equal |
| Stratified.UniqueSameIff | tsml_eval/utils/experiments.py:113-117 | the assertion holds iff train and test have the same class set |
| Stratified.Positions | tsml_eval/utils/experiments.py:128 | `np.where` gives one position per case of the class, each holding that class |
| Stratified.FitsPlan | tsml_eval/utils/experiments.py:113-136 | the class loop's inputs fit: one shuffle per class, and each class's train count is its count in the train labels, the rest being its count in the test labels |
| Stratified.PlanCovers | tsml_eval/utils/experiments.py:116-128 | when train and test have the same classes, every label is one of the loop's classes |
| Stratified.ClassOrder | tsml_eval/utils/experiments.py:127-131 | the shuffled positions of a class each hold that class |
| Stratified.TrainPart | tsml_eval/utils/experiments.py:134-135 | the class's train positions: as many as its train count |
| Stratified.TestPart | tsml_eval/utils/experiments.py:136 | the class's test positions: the rest |
| Stratified.TrainIndices | tsml_eval/utils/experiments.py:124-148 | the train positions of the first m classes are positions of the combined labels |
| Stratified.TestIndices | tsml_eval/utils/experiments.py:124-148 | the same for the test positions |
| Stratified.PickClasses | tsml_eval/utils/experiments.py:124-148 | the class loop returns `PickByPlan`: IndexError when a picked position is not a row, otherwise the rows and labels at the picked positions in class order |
| Stratified.StratifiedResample | tsml_eval/utils/experiments.py:107-153 | `stratified_resample_data` returns `StratifiedResampleData`: AssertionError on different class lists, otherwise the class loop's result |
| Stratified.StratifiedResampleData | tsml_eval/utils/experiments.py:107-153 | AssertionError when train and test list different classes; otherwise IndexError when a picked position is not a data row, and else the rows and labels at each class's shuffled positions, its train count to the new train set and the rest to the new test set |
| Stratified.StratifiedErrors | tsml_eval/utils/experiments.py:116-140 | AssertionError iff the class sets differ; otherwise IndexError iff there are fewer data rows than labels; no other error |
| Stratified.StratifiedKeepsClassCounts | tsml_eval/utils/experiments.py:124-148 | the new train labels have exactly the old train class counts, the new test labels the old test class counts, and the row counts match |
| Stratified.StratifiedGroupsClasses | tsml_eval/utils/experiments.py:124-148 | both new label sequences list the classes grouped in ascending order |
| Stratified.StratifiedKeepsCases | tsml_eval/utils/experiments.py:124-148 | every case, row and label together, ends up in exactly one of the new sets |
| Stratified.TrainLabelCounts | tsml_eval/utils/experiments.py:134-147 | after m classes, the new train labels count each of those classes as many times as its train count |
| Stratified.TestLabelCounts | tsml_eval/utils/experiments.py:136-148 | the same for the test labels and the remaining counts |
| Stratified.TrainGrouped | tsml_eval/utils/experiments.py:141-147 | after m classes, the train labels are grouped by class in ascending order |
| Stratified.TestGrouped | tsml_eval/utils/experiments.py:142-148 | the same for the test labels |
| Stratified.IndicesOnce | tsml_eval/utils/experiments.py:124-148 | after m classes, each position of one of those classes has been picked exactly once, train or test |
| Stratified.EachCaseOnce | tsml_eval/utils/experiments.py:124-148 | when the classes cover the labels, every position is picked exactly once |
| Stratified.CasePicked | tsml_eval/utils/experiments.py:124-148 | every position is picked |
| Stratified.PickedBelowIff | tsml_eval/utils/experiments.py:139-140 | all picked positions are rows iff there are at least as many rows as labels |
| Text.Split | tsml_eval/utils/experiments.py:746 | `str.split` gives at least one field |
| Text.SplitFieldCount | tsml_eval/utils/experiments.py:746-747 | k separators give k + 1 fields |
| Text.SplitJoin | tsml_eval/utils/experiments.py:594-601 | joining separator-free fields and splitting again gives the fields back |
| Text.JoinSplit | tsml_eval/utils/experiments.py:746 | splitting and joining again gives the text back |
| Text.JoinSplitIsReplace | tsml_eval/utils/experiments.py:726 | splitting at one character and joining with another is `str.replace` |
| Text.Lower | tsml_eval/utils/experiments.py:577 | ASCII lower-casing keeps the length (see Left out) |
| Text.LowerIdempotent | tsml_eval/utils/experiments.py:589 | lower-casing twice is lower-casing once |
| Text.ReadLinesConcat | tsml_eval/utils/experiments.py:677 | the lines `readlines()` gives join back to the text |
| Text.ReadLines | tsml_eval/utils/experiments.py:677 | the text cut after every `\n`, each line keeping its break, with no empty line at the end |
| Text.ReadLinesShaped | tsml_eval/utils/experiments.py:677 | every line but the last ends with its break, and none holds another |
| Text.ReadLinesOfShaped | tsml_eval/utils/experiments.py:741-742 | writing such lines and reading them back gives the same lines |
| Text.ReadTerminated | tsml_eval/utils/experiments.py:602-610 | lines written each with a break read back as those lines with their breaks |

## Left out

- Files opened as text use universal newlines in Python. The model treats only `"\n"` as a line break. `"\r"` is an ordinary character, except in `fix_broken_second_line`, which replaces it by a space as the source does.
- Failures of `os.makedirs` other than an existing directory are not modelled, and neither is `open` failing for a missing directory or a permission error. A file that does not exist is `FileNotFoundError` in the repair. The validator and the comparator are given the file's text, so a missing file is not part of their model.
- FileStore.AfterMakeDirs: the directory set records only the literal path passed to `os.makedirs`, not the parent directories it also creates nor its normalised form (without a trailing slash). Nothing in the model reads the directory set, so no outcome depends on this.
- Text.Lower: lower-cases ASCII letters only, where Python's `str.lower` is Unicode. No split value is judged differently: the only non-ASCII capitals that lower to ASCII letters (U+0130 and U+212A) cannot make a split lower-case to `train` or `test`, so `NormaliseSplit` and `ResultsFileName` agree with the source on every input.
- Writer.LabelText: writer labels and predictions are numbers (`Num`). The TypeError that `np.isnan` raises on a non-numeric label, after the three header lines are written, is not modelled.
- Output buffering is not modelled. The writer's effect when it raises mid-file is the text written so far, as if every write reached the disk.
- `float()` and the `str()`/f-string rendering of numbers are parameters constrained by `FloatLike` and `RendersParseably`. Rendering of floats, NaN and NumPy scalars is not reimplemented.
- The random generators are replaced by permutations given as arguments: `DataFrame.sample` by one permutation of all rows, `RandomState.shuffle` by one permutation per class.
- pandas rows are opaque values and the label arrays are sequences. `reset_index` and the dtype NumPy gives the concatenated labels (float for the stratified result) are not modelled.
- Stratified labels are integers, so that `np.unique` has an order to sort by.
- `StratifiedResample` and `StratifiedResampleData` require one shuffle per class, each drawing from that class's positions. `StratifiedErrors` and `StratifiedKeepsCases` also require each shuffle to be a permutation, which is what `RandomState.shuffle` produces.
- IndexError in `stratified_resample_data` is modelled as a picked position beyond the combined data rows, which is the `iloc` failure. `StratifiedErrors` proves this equivalent to there being fewer rows than labels.
- The resamplers' other failure modes (mismatched DataFrame columns, non-array labels) are not modelled.
- `_results_present` and `_results_present_full_path` only test for files on disk. `assign_gpu` queries the hardware. Neither is part of this model.
- `RegressionFileValidates` and the other writer-to-validator properties require header values without line breaks or, where they land in comma-separated fields, without commas. With breaks the written file has more lines: that is the case `fix_broken_second_line` repairs (`RepairRecoversSecondLine`).
