/**
 * What the repair achieves on the files it is meant for. A file whose second
 * line was written with breaks inside it is restored to the file with those
 * breaks turned into spaces. A file the writer produced with a break-free
 * second line is left alone.
 */
module RepairProofs {
  import opened Outcomes
  import opened Text
  import opened Numbers
  import opened LineChecks
  import opened FileStore
  import opened Repair
  import opened Writer
  import opened Layout
  import opened RoundTrip

  /** A character the text does not hold is in none of its fields. */
  lemma {:induction false} SplitFieldsAvoid(s: string, sep: char, c: char)
    requires c !in s
    ensures forall i :: 0 <= i < |Split(s, sep)| ==> c !in Split(s, sep)[i]
    decreases |s|
  {
    if s != [] {
      SplitFieldsAvoid(s[1..], sep, c);
    }
  }

  /** Writing a second line that holds breaks is writing each of its pieces as a line. */
  lemma BrokenFileText(first: string, second: string, rest: seq<string>)
    ensures Terminated([first, second] + rest) == Terminated([first] + Split(second, '\n') + rest)
  {
    var pieces := Split(second, '\n');
    JoinSplit(second, '\n');
    TerminatedJoin(pieces);
    assert [first, second] == [first] + [second];
    assert WithBreaks([second]) == [second + "\n"];
    assert Concat([second + "\n"]) == second + "\n" + Concat([]);
    calc {
      Terminated([first, second] + rest);
      { TerminatedAppend([first, second], rest); }
      Terminated([first, second]) + Terminated(rest);
      { TerminatedAppend([first], [second]); }
      Terminated([first]) + Terminated([second]) + Terminated(rest);
      Terminated([first]) + Terminated(pieces) + Terminated(rest);
      { TerminatedAppend([first], pieces); }
      Terminated([first] + pieces) + Terminated(rest);
      { TerminatedAppend([first] + pieces, rest); }
      Terminated([first] + pieces + rest);
    }
  }

  /** The lines read from a file whose second line holds breaks: the second line comes back in pieces. */
  lemma BrokenFileLines(first: string, second: string, rest: seq<string>)
    requires NoBreaks([first] + rest)
    ensures ReadLines(Terminated([first, second] + rest)) == WithBreaks([first] + Split(second, '\n') + rest)
  {
    var pieces := Split(second, '\n');
    BrokenFileText(first, second, rest);
    SplitFieldsSepFree(second, '\n');
    var all := [first] + pieces + rest;
    forall i | 0 <= i < |all| ensures '\n' !in all[i] {
      if i == 0 {
        assert all[i] == ([first] + rest)[0];
      } else if i < 1 + |pieces| {
        assert all[i] == pieces[i - 1];
      } else {
        assert all[i] == ([first] + rest)[i - |pieces|];
      }
    }
    ReadTerminated(all);
  }

  /** The scan stops at the written third line: no piece of the second line after its first is a third line. */
  lemma BrokenFileThirdLine(isFloat: string -> bool, first: string, pieces: seq<string>, rest: seq<string>)
    requires FloatLike(isFloat)
    requires |pieces| >= 1 && |rest| >= 1 && IsThirdLine(isFloat, rest[0])
    requires forall j :: 1 <= j < |pieces| ==> !IsThirdLine(isFloat, pieces[j])
    ensures ThirdLineIndex(isFloat, WithBreaks([first] + pieces + rest), 2) == Some(|pieces| + 1)
  {
    var lines := WithBreaks([first] + pieces + rest);
    var k := |pieces| + 1;
    HeaderChecksIgnoreBreak(isFloat, rest[0]);
    assert lines[k] == rest[0] + "\n";
    PiecesAreNotThirdLines(isFloat, first, pieces, rest);
    ThirdLineIndexIs(isFloat, lines, 2, k);
  }

  lemma PiecesAreNotThirdLines(isFloat: string -> bool, first: string, pieces: seq<string>, rest: seq<string>)
    requires FloatLike(isFloat)
    requires forall j :: 1 <= j < |pieces| ==> !IsThirdLine(isFloat, pieces[j])
    ensures var lines := WithBreaks([first] + pieces + rest);
      forall j :: 2 <= j < |pieces| + 1 ==> !IsThirdLine(isFloat, lines[j])
  {
    var lines := WithBreaks([first] + pieces + rest);
    forall j | 2 <= j < |pieces| + 1 ensures !IsThirdLine(isFloat, lines[j]) {
      assert lines[j] == pieces[j - 1] + "\n";
      HeaderChecksIgnoreBreak(isFloat, pieces[j - 1]);
    }
  }

  /** A piece of a line, with its break, flattened: the break becomes a space. */
  lemma FlattenPiece(piece: string)
    requires '\n' !in piece && '\r' !in piece
    ensures Flatten(piece + "\n") == piece + " "
  {
  }

  /** The pieces of the second line but the last, read back with their breaks and flattened, each end in a space. */
  lemma BrokenPiecesFlattened(first: string, second: string, rest: seq<string>)
    requires '\r' !in second && |Split(second, '\n')| >= 2
    ensures var pieces := Split(second, '\n');
      var lines := WithBreaks([first] + pieces + rest);
      Flattened(lines[1..|pieces|]) == Suffixed(pieces[..|pieces| - 1], ' ') &&
      lines[|pieces|] == pieces[|pieces| - 1] + "\n"
  {
    var pieces := Split(second, '\n');
    var m := |pieces|;
    var lines := WithBreaks([first] + pieces + rest);
    var init := pieces[..m - 1];
    var all := [first] + pieces + rest;
    assert all[m] == pieces[m - 1] && all[1..m] == init;
    assert lines[1..m] == WithBreaks(init);
    SplitFieldsSepFree(second, '\n');
    SplitFieldsAvoid(second, '\n', '\r');
    forall i | 0 <= i < m - 1 ensures Flatten(WithBreaks(init)[i]) == Suffixed(init, ' ')[i] {
      FlattenPiece(init[i]);
    }
  }

  /** The merged second line is the original second line with its breaks as spaces, and one break at the end. */
  lemma BrokenFileMerged(first: string, second: string, rest: seq<string>)
    requires '\r' !in second && |Split(second, '\n')| >= 2 && |rest| >= 1
    ensures var pieces := Split(second, '\n');
      Merged(WithBreaks([first] + pieces + rest), |pieces| + 1) == Replace(second, '\n', ' ') + "\n"
  {
    var pieces := Split(second, '\n');
    var m := |pieces|;
    BrokenPiecesFlattened(first, second, rest);
    var flat := Concat(Suffixed(pieces[..m - 1], ' '));
    assert flat + pieces[m - 1] == Replace(second, '\n', ' ') by {
      JoinAsConcat(pieces, ' ');
      JoinSplitIsReplace(second, '\n', ' ');
    }
    assert flat + (pieces[m - 1] + "\n") == (flat + pieces[m - 1]) + "\n";
  }

  /** The repaired lines of such a file are its lines with the second line's breaks as spaces. */
  lemma BrokenFileRepaired(first: string, second: string, rest: seq<string>)
    requires '\r' !in second && |Split(second, '\n')| >= 2 && |rest| >= 1
    ensures var pieces := Split(second, '\n');
      Repaired(WithBreaks([first] + pieces + rest), |pieces| + 1) == WithBreaks([first, Replace(second, '\n', ' ')] + rest)
  {
    var pieces := Split(second, '\n');
    var k := |pieces| + 1;
    var merged := Replace(second, '\n', ' ');
    BrokenFileMerged(first, second, rest);
    var lines := WithBreaks([first] + pieces + rest);
    assert lines[k..] == WithBreaks(rest) by {
      WithBreaksAppend([first] + pieces, rest);
      assert |WithBreaks([first] + pieces)| == k;
    }
    assert [lines[0], Merged(lines, k)] == WithBreaks([first, merged]);
    WithBreaksAppend([first, merged], rest);
  }

  /** A second line without breaks is read back as one piece, and the repair leaves it as it is. */
  lemma UnbrokenSecondLine(second: string)
    requires |Split(second, '\n')| == 1
    ensures Split(second, '\n') == [second] && Replace(second, '\n', ' ') == second
  {
    SplitFieldCount(second, '\n');
    assert '\n' !in second;
    SplitNoSep(second, '\n');
  }

  /** The text the repair writes for such a file, whether or not its second line held breaks. */
  lemma BrokenFileRepairedText(first: string, second: string, rest: seq<string>)
    requires '\r' !in second && |rest| >= 1
    ensures var pieces := Split(second, '\n');
      Concat(Repaired(WithBreaks([first] + pieces + rest), |pieces| + 1)) == Terminated([first, Replace(second, '\n', ' ')] + rest)
  {
    var pieces := Split(second, '\n');
    if |pieces| == 1 {
      UnbrokenSecondLine(second);
      assert [first] + pieces + rest == [first, Replace(second, '\n', ' ')] + rest;
    } else {
      BrokenFileRepaired(first, second, rest);
    }
  }

  /**
   * The lines read from a file whose second line was written with breaks
   * inside it: the scan finds the written third line right after the
   * pieces, and the repaired lines make the file with those breaks as
   * spaces.
   */
  lemma RepairRecoversLines(isFloat: string -> bool, first: string, second: string, rest: seq<string>)
    requires FloatLike(isFloat)
    requires NoBreaks([first] + rest) && '\r' !in second
    requires |rest| >= 1 && IsThirdLine(isFloat, rest[0])
    requires forall j :: 1 <= j < |Split(second, '\n')| ==> !IsThirdLine(isFloat, Split(second, '\n')[j])
    ensures var lines := ReadLines(Terminated([first, second] + rest));
      var k := |Split(second, '\n')| + 1;
      ThirdLineIndex(isFloat, lines, 2) == Some(k) &&
      Concat(Repaired(lines, k)) == Terminated([first, Replace(second, '\n', ' ')] + rest)
  {
    BrokenFileLines(first, second, rest);
    BrokenLinesRepaired(isFloat, first, second, rest, ReadLines(Terminated([first, second] + rest)));
  }

  /** RepairRecoversLines, stated on the lines the file reads as. */
  lemma BrokenLinesRepaired(isFloat: string -> bool, first: string, second: string, rest: seq<string>, lines: seq<string>)
    requires FloatLike(isFloat)
    requires '\r' !in second
    requires |rest| >= 1 && IsThirdLine(isFloat, rest[0])
    requires forall j :: 1 <= j < |Split(second, '\n')| ==> !IsThirdLine(isFloat, Split(second, '\n')[j])
    requires lines == WithBreaks([first] + Split(second, '\n') + rest)
    ensures var k := |Split(second, '\n')| + 1;
      ThirdLineIndex(isFloat, lines, 2) == Some(k) &&
      Concat(Repaired(lines, k)) == Terminated([first, Replace(second, '\n', ' ')] + rest)
  {
    BrokenFileThirdLine(isFloat, first, Split(second, '\n'), rest);
    BrokenFileRepairedText(first, second, rest);
  }

  /**
   * A file whose second line was written with line breaks (and no carriage
   * returns) inside it, followed by a third line in a layout and any further
   * lines, is repaired in place to the file it would have been had those
   * breaks been spaces; nothing else is written.
   */
  lemma RepairRecoversSecondLine(
    isFloat: string -> bool, filePath: string, first: string, second: string, rest: seq<string>, before: DiskState)
    requires FloatLike(isFloat)
    requires filePath in before.files && before.files[filePath] == Terminated([first, second] + rest)
    requires NoBreaks([first] + rest) && '\r' !in second
    requires |rest| >= 1 && IsThirdLine(isFloat, rest[0])
    requires forall j :: 1 <= j < |Split(second, '\n')| ==> !IsThirdLine(isFloat, Split(second, '\n')[j])
    ensures FixOutcome(isFloat, filePath, None, before).0 == Pass
    ensures FixOutcome(isFloat, filePath, None, before).1.files
      == before.files[filePath := Terminated([first, Replace(second, '\n', ' ')] + rest)]
  {
    RepairRecoversLines(isFloat, first, second, rest);
    RepairInPlaceWrites(isFloat, filePath, before, Terminated([first, second] + rest), |Split(second, '\n')| + 1,
                        Terminated([first, Replace(second, '\n', ' ')] + rest));
  }

  /**
   * A file the writer produced with break-free header values and a third
   * line in a layout needs no repair: repairing it in place writes nothing.
   */
  lemma WrittenFileNeedsNoRepair(
    str: Num -> string, isFloat: string -> bool, predictions: seq<Num>, labels: seq<Num>, probabilities: Option<seq<seq<Num>>>,
    info: RunInfo, secondLine: string, thirdLine: string, before: DiskState)
    requires FloatLike(isFloat) && RendersParseably(str, isFloat)
    requires Completes(predictions, labels, probabilities, info, secondLine, thirdLine)
    requires IsThirdLine(isFloat, thirdLine)
    ensures var after := WriteResults(str, predictions, labels, probabilities, info, secondLine, thirdLine, before).1;
      FixOutcome(isFloat, WrittenPath(info), None, after) == (Pass, after)
  {
    WrittenFileLines(str, isFloat, predictions, labels, probabilities, info, secondLine, thirdLine, before);
    var lines := WithBreaks(WrittenLines(str, predictions, labels, probabilities, info, secondLine, thirdLine));
    assert lines[2] == thirdLine + "\n";
    HeaderChecksIgnoreBreak(isFloat, thirdLine);
    assert ThirdLineIndex(isFloat, lines, 2) == Some(2);
  }
}
