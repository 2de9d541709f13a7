/**
 * `validate_results_file`: the file's lines are checked header by header,
 * then every data line with or without probabilities, as the third line's
 * layout says.
 */
module Validate {
  import opened Outcomes
  import opened Text
  import opened LineChecks

  /** Classification and clustering files carry probabilities; regression files do not. */
  predicate ExpectsProbabilities(isFloat: string -> bool, third: string)
  {
    CheckClassificationThirdLine(isFloat, third) || CheckClusteringThirdLine(isFloat, third)
  }

  /** Every line from index 3 on passes the data-line check. */
  predicate DataLinesValid(isFloat: string -> bool, lines: seq<string>, probabilities: bool)
  {
    forall i :: 3 <= i < |lines| ==> CheckResultsLine(isFloat, lines[i], probabilities)
  }

  /** A results file in the expected format, as a list of lines. */
  predicate WellFormed(isFloat: string -> bool, lines: seq<string>)
  {
    |lines| >= 3 &&
    CheckFirstLine(lines[0]) && CheckSecondLine(lines[1]) && IsThirdLine(isFloat, lines[2]) &&
    DataLinesValid(isFloat, lines, ExpectsProbabilities(isFloat, lines[2]))
  }

  /**
   * What `validate_results_file` ends in for the lines of a file: an
   * IndexError when a header line it reads is missing (the second line is
   * not read once the first fails), otherwise whether the file is well formed.
   */
  function Validation(isFloat: string -> bool, lines: seq<string>): (r: Result<bool>)
    ensures r.Err? ==> r.error == IndexError
    ensures r.Err? <==> |lines| == 0 || (|lines| < 3 && CheckFirstLine(lines[0]))
    ensures r.Ok? ==> (r.value <==> WellFormed(isFloat, lines))
  {
    if |lines| == 0 then Err(IndexError)
    else if !CheckFirstLine(lines[0]) then Ok(false)
    else if |lines| < 3 then Err(IndexError)
    else Ok(WellFormed(isFloat, lines))
  }

  /** `validate_results_file` on the text of a file. */
  method ValidateResultsFile(isFloat: string -> bool, text: string) returns (r: Result<bool>)
    ensures r == Validation(isFloat, ReadLines(text))
  {
    var lines := ReadLines(text);
    if |lines| == 0 {
      return Err(IndexError);
    }
    if !CheckFirstLine(lines[0]) {
      return Ok(false);
    }
    if |lines| < 2 {
      return Err(IndexError);
    }
    if !CheckSecondLine(lines[1]) {
      return Ok(false);
    }
    if |lines| < 3 {
      return Err(IndexError);
    }
    var probabilities;
    if CheckClassificationThirdLine(isFloat, lines[2]) || CheckClusteringThirdLine(isFloat, lines[2]) {
      probabilities := true;
    } else if CheckRegressionThirdLine(isFloat, lines[2]) {
      probabilities := false;
    } else {
      return Ok(false);
    }
    assert probabilities == ExpectsProbabilities(isFloat, lines[2]);
    var ok := CheckDataLines(isFloat, lines, probabilities);
    return Ok(ok);
  }

  /** The loop over the data lines, which stops at the first line that fails. */
  method CheckDataLines(isFloat: string -> bool, lines: seq<string>, probabilities: bool) returns (ok: bool)
    requires |lines| >= 3
    ensures ok == DataLinesValid(isFloat, lines, probabilities)
  {
    for i := 3 to |lines|
      invariant forall k :: 3 <= k < i ==> CheckResultsLine(isFloat, lines[k], probabilities)
    {
      if !CheckResultsLine(isFloat, lines[i], probabilities) {
        return false;
      }
    }
    return true;
  }
}
