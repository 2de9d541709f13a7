/**
 * `fix_broken_second_line`: a second line written with line breaks inside
 * it spreads over several lines of the file. The repair looks for the first
 * line from index 2 on that matches a third-line layout, joins everything
 * between the first line and that one back into a single second line, and
 * writes the file again.
 */
module Repair {
  import opened Outcomes
  import opened Text
  import opened LineChecks
  import opened FileStore

  /** `line.replace("\n", " ").replace("\r", " ")`. */
  function Flatten(line: string): (r: string)
    ensures |r| == |line| && '\n' !in r && '\r' !in r
    ensures forall i :: 0 <= i < |line| ==> r[i] == (if line[i] == '\n' || line[i] == '\r' then ' ' else line[i])
  {
    Replace(Replace(line, '\n', ' '), '\r', ' ')
  }

  function Flattened(lines: seq<string>): (r: seq<string>)
    ensures |r| == |lines|
  {
    seq(|lines|, i requires 0 <= i < |lines| => Flatten(lines[i]))
  }

  /**
   * The scan of the `while` loop: the first index from `from` on whose line
   * matches a third-line layout, or None when no line from there on does.
   */
  function ThirdLineIndex(isFloat: string -> bool, lines: seq<string>, from: nat): (r: Option<nat>)
    ensures r.Some? ==> from <= r.value < |lines| && IsThirdLine(isFloat, lines[r.value])
    ensures r.Some? ==> forall j :: from <= j < r.value ==> !IsThirdLine(isFloat, lines[j])
    ensures r.None? ==> forall j :: from <= j < |lines| ==> !IsThirdLine(isFloat, lines[j])
    decreases |lines| - from
  {
    if from >= |lines| then None
    else if IsThirdLine(isFloat, lines[from]) then Some(from)
    else ThirdLineIndex(isFloat, lines, from + 1)
  }

  /** The scan ends at k when the line at k is the first from `from` on in a third-line layout. */
  lemma ThirdLineIndexIs(isFloat: string -> bool, lines: seq<string>, from: nat, k: nat)
    requires from <= k < |lines| && IsThirdLine(isFloat, lines[k])
    requires forall j :: from <= j < k ==> !IsThirdLine(isFloat, lines[j])
    ensures ThirdLineIndex(isFloat, lines, from) == Some(k)
  {
    var found := ThirdLineIndex(isFloat, lines, from);
    assert found.Some?;
    assert !(found.value < k) && !(k < found.value);
  }

  /** The one line that replaces lines 1 to k-1: all but the last flattened, the last kept with its break. */
  function Merged(lines: seq<string>, k: nat): string
    requires 3 <= k < |lines|
  {
    Concat(Flattened(lines[1..k - 1])) + lines[k - 1]
  }

  /** The lines after the repair, given the index k of the third line. */
  function Repaired(lines: seq<string>, k: nat): seq<string>
    requires 2 <= k < |lines|
  {
    if k == 2 then lines else [lines[0], Merged(lines, k)] + lines[k..]
  }

  /** Where the repaired file goes: the save path, or the file itself. */
  function Target(filePath: string, savePath: Option<string>): string
  {
    if savePath.None? then filePath else savePath.value
  }

  /**
   * What `fix_broken_second_line` does to the disk and how it ends. A
   * missing file cannot be opened; a file with no line from index 2 on in a
   * third-line layout ends in IndexError (the scan reads past the last
   * line) and nothing is written; a file whose third line is already in
   * place is written only when a save path is given.
   */
  function FixOutcome(isFloat: string -> bool, filePath: string, savePath: Option<string>, before: DiskState): (Outcome, DiskState)
  {
    if filePath !in before.files then (Fail(FileNotFoundError), before)
    else
      var lines := ReadLines(before.files[filePath]);
      match ThirdLineIndex(isFloat, lines, 2)
      case None => (Fail(IndexError), before)
      case Some(k) =>
        if savePath.None? && k == 2 then (Pass, before)
        else
          var target := Target(filePath, savePath);
          var made := AfterMakeDirs(before, DirName(target));
          (Pass, made.(files := made.files[target := Concat(Repaired(lines, k))]))
  }

  method FixBrokenSecondLine(disk: Disk, isFloat: string -> bool, filePath: string, savePath: Option<string>) returns (r: Outcome)
    modifies disk
    ensures (r, disk.State()) == FixOutcome(isFloat, filePath, savePath, old(disk.State()))
  {
    if filePath !in disk.files {
      return Fail(FileNotFoundError);
    }
    var lines := ReadLines(disk.files[filePath]);
    var found := FindThirdLine(isFloat, lines);
    if found.None? {
      return Fail(IndexError);
    }
    var lineCount := found.value;
    if lineCount != 2 {
      lines := MergeSecondLine(lines, lineCount);
    }
    if savePath.Some? || lineCount != 2 {
      var target := Target(filePath, savePath);
      disk.MakeDirs(DirName(target));
      ghost var made := disk.files;
      disk.Create(target);
      disk.Write(target, Concat(lines));
      assert "" + Concat(lines) == Concat(lines);
      UpdateTwice(made, target, "", Concat(lines));
    }
    return Pass;
  }

  /**
   * The `while` loop: the scan from index 2, which ends in IndexError
   * (None here) when it reads past the last line.
   */
  method FindThirdLine(isFloat: string -> bool, lines: seq<string>) returns (r: Option<nat>)
    ensures r == ThirdLineIndex(isFloat, lines, 2)
  {
    var lineCount := 2;
    if lineCount >= |lines| {
      return None;
    }
    while !CheckClassificationThirdLine(isFloat, lines[lineCount])
      && !CheckRegressionThirdLine(isFloat, lines[lineCount])
      && !CheckClusteringThirdLine(isFloat, lines[lineCount])
      invariant 2 <= lineCount < |lines|
      invariant ThirdLineIndex(isFloat, lines, lineCount) == ThirdLineIndex(isFloat, lines, 2)
      decreases |lines| - lineCount
    {
      // The ValueError for a scan that reached the end is never raised:
      // the line at lineCount has just been read.
      assert lineCount != |lines|;
      lineCount := lineCount + 1;
      if lineCount >= |lines| {
        return None;
      }
    }
    return Some(lineCount);
  }

  /** The rewrite of `lines[1]` and `lines` once the third line is found at k > 2. */
  method MergeSecondLine(read: seq<string>, k: nat) returns (lines: seq<string>)
    requires 3 <= k < |read|
    ensures lines == Repaired(read, k)
  {
    lines := read;
    lines := lines[1 := Flatten(lines[1])];
    assert read[1..2] == [read[1]];
    for i := 2 to k - 1
      invariant |lines| == |read| && lines[0] == read[0] && lines[2..] == read[2..]
      invariant lines[1] == Concat(Flattened(read[1..i]))
    {
      ConcatSnoc(Flattened(read[1..i]), Flatten(read[i]));
      assert Flattened(read[1..i + 1]) == Flattened(read[1..i]) + [Flatten(read[i])];
      lines := lines[1 := lines[1] + Flatten(lines[i])];
    }
    lines := lines[1 := lines[1] + lines[k - 1]];
    lines := lines[..2] + lines[k..];
  }

  /** With no line in a third-line layout from index 2 on, the repair raises and writes nothing. */
  lemma NoThirdLineWritesNothing(isFloat: string -> bool, filePath: string, savePath: Option<string>, before: DiskState)
    requires filePath in before.files
    requires forall j :: 2 <= j < |ReadLines(before.files[filePath])| ==> !IsThirdLine(isFloat, ReadLines(before.files[filePath])[j])
    ensures FixOutcome(isFloat, filePath, savePath, before) == (Fail(IndexError), before)
  {
  }

  /**
   * After a repair at k > 2: line 0 and the lines from k on are kept, the
   * lines in between become one, and the third line sits at index 2.
   */
  lemma RepairedShape(isFloat: string -> bool, lines: seq<string>, k: nat)
    requires 3 <= k < |lines| && ThirdLineIndex(isFloat, lines, 2) == Some(k)
    ensures var r := Repaired(lines, k);
      |r| == |lines| - (k - 2) && r[0] == lines[0] && r[2..] == lines[k..] &&
      ThirdLineIndex(isFloat, r, 2) == Some(2)
  {
    assert Repaired(lines, k)[2] == lines[k];
  }

  lemma {:induction false} ConcatNoBreak(parts: seq<string>)
    requires forall i :: 0 <= i < |parts| ==> '\n' !in parts[i]
    ensures '\n' !in Concat(parts)
    decreases |parts|
  {
    if parts != [] {
      ConcatNoBreak(parts[1..]);
    }
  }

  /** The merged line is one line that ends in a break, since the third line still follows it. */
  lemma MergedIsLine(lines: seq<string>, k: nat)
    requires LineShaped(lines)
    requires 3 <= k < |lines|
    ensures IsLine(Merged(lines, k)) && EndsWithBreak(Merged(lines, k))
  {
    var m := Merged(lines, k);
    var last := lines[k - 1];
    var head := Concat(Flattened(lines[1..k - 1]));
    ConcatNoBreak(Flattened(lines[1..k - 1]));
    assert IsLine(last) && EndsWithBreak(last);
    assert m[..|m| - 1] == head + last[..|last| - 1];
  }

  /** The lines of a read file, repaired, are still lines as `readlines()` gives them. */
  lemma RepairedLineShaped(lines: seq<string>, k: nat)
    requires LineShaped(lines)
    requires 2 <= k < |lines|
    ensures LineShaped(Repaired(lines, k))
  {
    if k > 2 {
      MergedIsLine(lines, k);
      var r := Repaired(lines, k);
      assert r == [lines[0], Merged(lines, k)] + lines[k..];
      forall i | 0 <= i < |r| ensures IsLine(r[i]) && (i < |r| - 1 ==> EndsWithBreak(r[i])) {
        if i >= 2 {
          assert r[i] == lines[i - 2 + k];
        }
      }
    }
  }

  /**
   * Repair is idempotent: repairing the file the repair wrote, in place,
   * changes nothing and ends normally.
   */
  lemma RepairIdempotent(isFloat: string -> bool, filePath: string, savePath: Option<string>, before: DiskState)
    requires FixOutcome(isFloat, filePath, savePath, before).0 == Pass
    ensures var after := FixOutcome(isFloat, filePath, savePath, before).1;
      FixOutcome(isFloat, Target(filePath, savePath), None, after) == (Pass, after)
  {
    var lines := ReadLines(before.files[filePath]);
    var k := ThirdLineIndex(isFloat, lines, 2).value;
    var target := Target(filePath, savePath);
    var after := FixOutcome(isFloat, filePath, savePath, before).1;
    ReadLinesShaped(before.files[filePath]);
    RepairedLineShaped(lines, k);
    if savePath.None? && k == 2 {
      assert after == before && target == filePath;
    } else {
      var r := Repaired(lines, k);
      assert after.files[target] == Concat(r);
      ReadLinesOfShaped(r);
      if k > 2 {
        RepairedShape(isFloat, lines, k);
      }
      assert ThirdLineIndex(isFloat, r, 2) == Some(2);
    }
  }

  /** Repairing in place writes the repaired lines back over the file; a sound file is written back unchanged. */
  lemma RepairInPlace(isFloat: string -> bool, filePath: string, before: DiskState, k: nat)
    requires filePath in before.files
    requires ThirdLineIndex(isFloat, ReadLines(before.files[filePath]), 2) == Some(k)
    ensures FixOutcome(isFloat, filePath, None, before).0 == Pass
    ensures FixOutcome(isFloat, filePath, None, before).1.files
      == before.files[filePath := Concat(Repaired(ReadLines(before.files[filePath]), k))]
  {
    if k == 2 {
      ReadLinesConcat(before.files[filePath]);
    }
  }

  /** The in-place repair of a file whose lines and third-line index are known. */
  lemma RepairInPlaceWrites(isFloat: string -> bool, filePath: string, before: DiskState, text: string, k: nat, fixed: string)
    requires filePath in before.files && before.files[filePath] == text
    requires ThirdLineIndex(isFloat, ReadLines(text), 2) == Some(k)
    requires Concat(Repaired(ReadLines(text), k)) == fixed
    ensures FixOutcome(isFloat, filePath, None, before).0 == Pass
    ensures FixOutcome(isFloat, filePath, None, before).1.files == before.files[filePath := fixed]
  {
    RepairInPlace(isFloat, filePath, before, k);
  }

  /** A file whose third line is in place, repaired in place, is left as it is: nothing is written. */
  lemma SoundFileUntouched(isFloat: string -> bool, filePath: string, before: DiskState)
    requires filePath in before.files
    requires ThirdLineIndex(isFloat, ReadLines(before.files[filePath]), 2) == Some(2)
    ensures FixOutcome(isFloat, filePath, None, before) == (Pass, before)
  {
  }

  /** A file whose third line is in place, saved elsewhere, is copied unchanged. */
  lemma SaveCopiesSoundFile(isFloat: string -> bool, filePath: string, savePath: string, before: DiskState)
    requires filePath in before.files
    requires ThirdLineIndex(isFloat, ReadLines(before.files[filePath]), 2) == Some(2)
    ensures var (r, after) := FixOutcome(isFloat, filePath, Some(savePath), before);
      r == Pass && after.files == before.files[savePath := before.files[filePath]]
  {
    ReadLinesConcat(before.files[filePath]);
  }
}
