/**
 * The string operations the results-file code relies on: `str.split` and
 * `str.join` with a one-character separator, `str.replace` of one character,
 * ASCII `str.lower`, `"".join`/`writelines`, and `readlines()`, which cuts a
 * text after every line break and keeps the breaks.
 */
module Text {

  /** `sep.join(parts)`. */
  function Join(parts: seq<string>, sep: char): string
    decreases |parts|
  {
    if |parts| == 0 then ""
    else if |parts| == 1 then parts[0]
    else parts[0] + [sep] + Join(parts[1..], sep)
  }

  /**
   * `s.split(sep)`: the text cut at every separator, so "" gives [""] and the
   * result is never empty (SplitFieldCount, SplitFieldsSepFree and JoinSplit
   * below state what the fields are).
   */
  function Split(s: string, sep: char): (fields: seq<string>)
    ensures |fields| >= 1
    decreases |s|
  {
    if s == [] then [""]
    else
      var rest := Split(s[1..], sep);
      if s[0] == sep then [""] + rest
      else Prepend(s[0], rest)
  }

  /** The fields with `c` put in front of the first one. */
  function Prepend(c: char, fields: seq<string>): (r: seq<string>)
    requires |fields| >= 1
    ensures |r| == |fields| && r[0] == [c] + fields[0] && r[1..] == fields[1..]
  {
    [[c] + fields[0]] + fields[1..]
  }

  lemma PrependAppend(c: char, x: seq<string>, y: seq<string>)
    requires |x| >= 1
    ensures Prepend(c, x + y) == Prepend(c, x) + y
  {
    assert (x + y)[1..] == x[1..] + y;
  }

  lemma JoinCons(parts: seq<string>, sep: char)
    requires |parts| >= 2
    ensures Join(parts, sep) == parts[0] + [sep] + Join(parts[1..], sep)
  {
  }

  /** Joining one more part adds a separator and the part. */
  lemma {:induction false} JoinSnoc(parts: seq<string>, last: string, sep: char)
    requires |parts| >= 1
    ensures Join(parts + [last], sep) == Join(parts, sep) + [sep] + last
    decreases |parts|
  {
    if |parts| > 1 {
      assert (parts + [last])[1..] == parts[1..] + [last];
      JoinSnoc(parts[1..], last, sep);
    }
  }

  lemma JoinThree(a: string, b: string, c: string, sep: char)
    ensures Join([a, b, c], sep) == a + [sep] + b + [sep] + c
  {
    assert [a, b, c][1..] == [b, c] && [b, c][1..] == [c];
    assert Join([c], sep) == c;
    assert Join([b, c], sep) == b + [sep] + c;
    assert Join([a, b, c], sep) == a + [sep] + (b + [sep] + c);
  }

  /** A separator between two texts splits them into the fields of each. */
  lemma {:induction false} SplitConcat(a: string, b: string, sep: char)
    ensures Split(a + [sep] + b, sep) == Split(a, sep) + Split(b, sep)
    decreases |a|
  {
    var s := a + [sep] + b;
    if a == [] {
      assert s[1..] == b;
    } else {
      assert s[1..] == a[1..] + [sep] + b;
      SplitConcat(a[1..], b, sep);
      if a[0] != sep {
        PrependAppend(a[0], Split(a[1..], sep), Split(b, sep));
      }
    }
  }

  /** No field holds the separator. */
  lemma {:induction false} SplitFieldsSepFree(s: string, sep: char)
    ensures forall i :: 0 <= i < |Split(s, sep)| ==> sep !in Split(s, sep)[i]
    decreases |s|
  {
    if s != [] {
      SplitFieldsSepFree(s[1..], sep);
      var rest := Split(s[1..], sep);
      if s[0] != sep {
        var f := Prepend(s[0], rest);
        forall i | 0 <= i < |f| ensures sep !in f[i] {
          if i > 0 { assert f[i] == rest[i]; }
        }
      }
    }
  }

  /** k separators give k + 1 fields. */
  lemma {:induction false} SplitFieldCount(s: string, sep: char)
    ensures |Split(s, sep)| == multiset(s)[sep] + 1
    decreases |s|
  {
    if s != [] {
      SplitFieldCount(s[1..], sep);
      assert multiset(s) == multiset{s[0]} + multiset(s[1..]) by {
        assert s == [s[0]] + s[1..];
      }
    }
  }

  /** Joining the fields back with the separator gives the text again. */
  lemma {:induction false} JoinSplit(s: string, sep: char)
    ensures Join(Split(s, sep), sep) == s
    decreases |s|
  {
    if s != [] {
      JoinSplit(s[1..], sep);
      var rest := Split(s[1..], sep);
      if s[0] == sep {
        assert ([""] + rest)[1..] == rest;
        assert Join([""] + rest, sep) == [sep] + Join(rest, sep);
      } else {
        var f := Prepend(s[0], rest);
        if |rest| > 1 {
          JoinCons(rest, sep);
          JoinCons(f, sep);
        }
      }
      assert s == [s[0]] + s[1..];
    }
  }

  /** A text without the separator is one field. */
  lemma SplitNoSep(s: string, sep: char)
    requires sep !in s
    ensures Split(s, sep) == [s]
  {
    SplitFieldCount(s, sep);
    JoinSplit(s, sep);
    assert multiset(s)[sep] == 0;
  }

  /** Splitting a join of separator-free parts gives the parts back. */
  lemma {:induction false} SplitJoin(parts: seq<string>, sep: char)
    requires |parts| >= 1
    requires forall i :: 0 <= i < |parts| ==> sep !in parts[i]
    ensures Split(Join(parts, sep), sep) == parts
    decreases |parts|
  {
    SplitNoSep(parts[0], sep);
    if |parts| > 1 {
      SplitJoin(parts[1..], sep);
      SplitConcat(parts[0], Join(parts[1..], sep), sep);
      assert parts == [parts[0]] + parts[1..];
    }
  }

  /** A join of n parts holds at least n - 1 separators, so it splits into at least n fields. */
  lemma {:induction false} JoinFieldCount(parts: seq<string>, sep: char)
    requires |parts| >= 1
    ensures |Split(Join(parts, sep), sep)| >= |parts|
    decreases |parts|
  {
    if |parts| > 1 {
      JoinFieldCount(parts[1..], sep);
      SplitConcat(parts[0], Join(parts[1..], sep), sep);
    }
  }

  /** The fields with `t` appended to the last one. */
  function ExtendLast(fields: seq<string>, t: string): (r: seq<string>)
    requires |fields| >= 1
    ensures |r| == |fields| && r[|r| - 1] == fields[|fields| - 1] + t
    ensures forall i :: 0 <= i < |fields| - 1 ==> r[i] == fields[i]
  {
    fields[..|fields| - 1] + [fields[|fields| - 1] + t]
  }

  lemma PrependExtendLast(c: char, fields: seq<string>, t: string)
    requires |fields| >= 1
    ensures Prepend(c, ExtendLast(fields, t)) == ExtendLast(Prepend(c, fields), t)
  {
    var x := Prepend(c, ExtendLast(fields, t));
    var y := ExtendLast(Prepend(c, fields), t);
    assert |x| == |y|;
    forall i | 0 <= i < |x| ensures x[i] == y[i] {
      if i == 0 && |fields| == 1 {
        assert x[0] == [c] + (fields[0] + t);
      }
    }
  }

  /** A separator-free text appended to a text lengthens its last field. */
  lemma {:induction false} SplitExtendLast(s: string, t: string, sep: char)
    requires sep !in t
    ensures Split(s + t, sep) == ExtendLast(Split(s, sep), t)
    decreases |s|
  {
    if s == [] {
      assert s + t == t;
      SplitNoSep(t, sep);
    } else {
      var u := s + t;
      assert u[0] == s[0] && u[1..] == s[1..] + t;
      SplitExtendLast(s[1..], t, sep);
      var rest := Split(s[1..], sep);
      if s[0] == sep {
        var x := [""] + ExtendLast(rest, t);
        var y := ExtendLast([""] + rest, t);
        assert |x| == |y|;
        forall i | 0 <= i < |x| ensures x[i] == y[i] {
          if i > 0 { assert x[i] == ExtendLast(rest, t)[i - 1]; }
        }
      } else {
        PrependExtendLast(s[0], rest, t);
      }
    }
  }

  /** `s.replace(a, b)` for single characters. */
  function Replace(s: string, a: char, b: char): (r: string)
    ensures |r| == |s|
  {
    seq(|s|, i requires 0 <= i < |s| => if s[i] == a then b else s[i])
  }

  /** Splitting at `a` and joining with `b` replaces every `a` by `b`. */
  lemma {:induction false} JoinSplitIsReplace(s: string, a: char, b: char)
    ensures Join(Split(s, a), b) == Replace(s, a, b)
    decreases |s|
  {
    if s != [] {
      JoinSplitIsReplace(s[1..], a, b);
      var rest := Split(s[1..], a);
      var r := Replace(s, a, b);
      assert r == [r[0]] + Replace(s[1..], a, b);
      if s[0] == a {
        assert ([""] + rest)[1..] == rest;
        assert Join([""] + rest, b) == [b] + Join(rest, b);
      } else {
        var f := Prepend(s[0], rest);
        if |rest| > 1 {
          JoinCons(rest, b);
          JoinCons(f, b);
        }
      }
    }
  }

  function LowerChar(c: char): char
  {
    if 'A' <= c <= 'Z' then (c as int + 32) as char else c
  }

  /** `s.lower()`, restricted to the ASCII letters. */
  function Lower(s: string): (r: string)
    ensures |r| == |s|
  {
    seq(|s|, i requires 0 <= i < |s| => LowerChar(s[i]))
  }

  lemma LowerAppend(a: string, b: string)
    ensures Lower(a + b) == Lower(a) + Lower(b)
  {
    assert forall i :: 0 <= i < |a + b| ==> Lower(a + b)[i] == (Lower(a) + Lower(b))[i];
  }

  /** Lower-casing twice is lower-casing once. */
  lemma LowerIdempotent(s: string)
    ensures Lower(Lower(s)) == Lower(s)
  {
    assert forall i :: 0 <= i < |s| ==> LowerChar(LowerChar(s[i])) == LowerChar(s[i]);
  }

  /** A character other than the separator that no part holds is not in their join. */
  lemma {:induction false} JoinAvoids(parts: seq<string>, sep: char, c: char)
    requires c != sep
    requires forall i :: 0 <= i < |parts| ==> c !in parts[i]
    ensures c !in Join(parts, sep)
    decreases |parts|
  {
    if |parts| > 1 {
      JoinAvoids(parts[1..], sep, c);
    }
  }

  /** `"".join(parts)`, which is also what `writelines` puts in a file. */
  function Concat(parts: seq<string>): string
    decreases |parts|
  {
    if parts == [] then "" else parts[0] + Concat(parts[1..])
  }

  lemma {:induction false} ConcatSnoc(parts: seq<string>, last: string)
    ensures Concat(parts + [last]) == Concat(parts) + last
    decreases |parts|
  {
    if parts != [] {
      assert (parts + [last])[1..] == parts[1..] + [last];
      ConcatSnoc(parts[1..], last);
    }
  }

  lemma {:induction false} ConcatAppend(a: seq<string>, b: seq<string>)
    ensures Concat(a + b) == Concat(a) + Concat(b)
    decreases |a|
  {
    if a != [] {
      assert (a + b)[1..] == a[1..] + b;
      ConcatAppend(a[1..], b);
      assert Concat(a + b) == a[0] + Concat(a[1..] + b);
    } else {
      assert a + b == b;
    }
  }

  predicate EndsWithBreak(line: string)
  {
    |line| > 0 && line[|line| - 1] == '\n'
  }

  /** A line as `readlines()` returns it: not empty, and a break, if any, only at its end. */
  predicate IsLine(line: string)
  {
    line != "" && '\n' !in line[..|line| - 1]
  }

  /** Lines as `readlines()` returns them: every line but the last ends in a break. */
  predicate LineShaped(lines: seq<string>)
  {
    (forall i :: 0 <= i < |lines| ==> IsLine(lines[i])) &&
    (forall i :: 0 <= i < |lines| - 1 ==> EndsWithBreak(lines[i]))
  }

  predicate NoBreaks(lines: seq<string>)
  {
    forall i :: 0 <= i < |lines| ==> '\n' !in lines[i]
  }

  /**
   * `readlines()` on a text read in text mode: the text is cut after every
   * line break, each line keeps its break, and a last line without a break
   * is kept when it is not empty.
   */
  function ReadLines(text: string): (lines: seq<string>)
    decreases |text|
  {
    if text == [] then []
    else
      var rest := ReadLines(text[1..]);
      if text[0] == '\n' || rest == [] then [[text[0]]] + rest
      else Prepend(text[0], rest)
  }

  /** Writing the lines read from a text back one after another gives the text again. */
  lemma {:induction false} ReadLinesConcat(text: string)
    ensures Concat(ReadLines(text)) == text
    decreases |text|
  {
    if text != [] {
      ReadLinesConcat(text[1..]);
      var rest := ReadLines(text[1..]);
      if text[0] == '\n' || rest == [] {
        assert ([[text[0]]] + rest)[1..] == rest;
      }
      assert text == [text[0]] + text[1..];
    }
  }

  /** What `readlines()` returns is line-shaped. */
  lemma {:induction false} ReadLinesShaped(text: string)
    ensures LineShaped(ReadLines(text))
    decreases |text|
  {
    if text != [] {
      ReadLinesShaped(text[1..]);
      var rest := ReadLines(text[1..]);
      var lines := ReadLines(text);
      if text[0] == '\n' || rest == [] {
        forall i | 1 <= i < |lines| ensures lines[i] == rest[i - 1] { }
      } else {
        var first := lines[0];
        assert first[..|first| - 1] == [text[0]] + rest[0][..|rest[0]| - 1];
        assert |rest| > 1 ==> first[|first| - 1] == rest[0][|rest[0]| - 1];
        forall i | 1 <= i < |lines| ensures lines[i] == rest[i] { }
      }
    }
  }

  /** A break-free line followed by a break is read as one line. */
  lemma {:induction false} ReadLinesBreak(a: string, b: string)
    requires '\n' !in a
    ensures ReadLines(a + "\n" + b) == [a + "\n"] + ReadLines(b)
    decreases |a|
  {
    var s := a + "\n" + b;
    if a == [] {
      assert s[0] == '\n' && s[1..] == b;
      assert a + "\n" == [s[0]];
    } else {
      assert s[1..] == a[1..] + "\n" + b;
      ReadLinesBreak(a[1..], b);
      PrependAppend(a[0], [a[1..] + "\n"], ReadLines(b));
      assert [a[0]] + (a[1..] + "\n") == a + "\n";
    }
  }

  /** A non-empty break-free text is read as one line. */
  lemma {:induction false} ReadLinesNoBreak(a: string)
    requires a != "" && '\n' !in a
    ensures ReadLines(a) == [a]
    decreases |a|
  {
    assert a[0] != '\n';
    assert [a[0]] + a[1..] == a;
    if a[1..] != [] {
      ReadLinesNoBreak(a[1..]);
      assert ReadLines(a) == Prepend(a[0], [a[1..]]);
    } else {
      assert ReadLines(a[1..]) == [];
      assert ReadLines(a) == [[a[0]]] + [];
      assert a == [a[0]];
    }
  }

  /** Reading back line-shaped lines written one after another gives them again. */
  lemma {:induction false} ReadLinesOfShaped(lines: seq<string>)
    requires LineShaped(lines)
    ensures ReadLines(Concat(lines)) == lines
    decreases |lines|
  {
    if lines != [] {
      var first := lines[0];
      assert IsLine(first);
      if |lines| == 1 && !EndsWithBreak(first) {
        assert '\n' !in first by {
          assert first == first[..|first| - 1] + [first[|first| - 1]];
        }
        assert lines == [first];
        assert Concat(lines) == first + Concat(lines[1..]);
        assert lines[1..] == [];
        assert Concat(lines) == first;
        ReadLinesNoBreak(first);
        assert ReadLines(Concat(lines)) == [first];
      } else {
        var a := first[..|first| - 1];
        assert first == a + "\n";
        assert LineShaped(lines[1..]) by {
          forall i | 0 <= i < |lines| - 1 ensures lines[1..][i] == lines[i + 1] { }
        }
        ReadLinesOfShaped(lines[1..]);
        ReadLinesBreak(a, Concat(lines[1..]));
      }
    }
  }

  /** A line followed by a line break. */
  function WithBreak(line: string): string
  {
    line + "\n"
  }

  /** Every line followed by a line break, as the results-file writer emits them. */
  function WithBreaks(lines: seq<string>): (r: seq<string>)
    ensures |r| == |lines|
  {
    seq(|lines|, i requires 0 <= i < |lines| => lines[i] + "\n")
  }

  /** The text made by writing every line followed by a line break. */
  function Terminated(lines: seq<string>): string
  {
    Concat(WithBreaks(lines))
  }

  lemma TerminatedSnoc(lines: seq<string>, last: string)
    ensures Terminated(lines + [last]) == Terminated(lines) + last + "\n"
  {
    assert WithBreaks(lines + [last]) == WithBreaks(lines) + [last + "\n"];
    ConcatSnoc(WithBreaks(lines), last + "\n");
  }

  lemma TerminatedThree(a: string, b: string, c: string)
    ensures Terminated([a, b, c]) == a + "\n" + b + "\n" + c + "\n"
  {
    var w := WithBreaks([a, b, c]);
    assert w == [a + "\n", b + "\n", c + "\n"];
    assert w[1..] == [b + "\n", c + "\n"] && w[1..][1..] == [c + "\n"] && w[1..][1..][1..] == [];
    assert Concat(w[1..][1..]) == c + "\n" + Concat([]);
    assert Concat(w[1..]) == b + "\n" + (c + "\n");
    assert Concat(w) == a + "\n" + (b + "\n" + (c + "\n"));
  }

  lemma TerminatedAppend(a: seq<string>, b: seq<string>)
    ensures Terminated(a + b) == Terminated(a) + Terminated(b)
  {
    assert WithBreaks(a + b) == WithBreaks(a) + WithBreaks(b);
    ConcatAppend(WithBreaks(a), WithBreaks(b));
  }

  lemma WithBreaksShaped(lines: seq<string>)
    requires NoBreaks(lines)
    ensures LineShaped(WithBreaks(lines))
  {
    var w := WithBreaks(lines);
    forall i | 0 <= i < |w| ensures IsLine(w[i]) && EndsWithBreak(w[i]) {
      assert w[i][..|w[i]| - 1] == lines[i];
    }
  }

  /** Reading back break-free lines written each with a break gives each of them with its break. */
  lemma ReadTerminated(lines: seq<string>)
    requires NoBreaks(lines)
    ensures ReadLines(Terminated(lines)) == WithBreaks(lines)
  {
    WithBreaksShaped(lines);
    ReadLinesOfShaped(WithBreaks(lines));
  }

  /** Writing parts each followed by a break gives their join with breaks, and a final break. */
  lemma {:induction false} TerminatedJoin(parts: seq<string>)
    requires |parts| >= 1
    ensures Terminated(parts) == Join(parts, '\n') + "\n"
    decreases |parts|
  {
    var init := parts[..|parts| - 1];
    var last := parts[|parts| - 1];
    assert parts == init + [last];
    TerminatedSnoc(init, last);
    if |init| == 0 {
      assert Terminated(init) == "";
    } else {
      TerminatedJoin(init);
      JoinSnoc(init, last, '\n');
    }
  }

  /** Every part with the separator after it. */
  function Suffixed(parts: seq<string>, sep: char): (r: seq<string>)
    ensures |r| == |parts|
  {
    seq(|parts|, i requires 0 <= i < |parts| => parts[i] + [sep])
  }

  /** A join is every part but the last followed by the separator, then the last part. */
  lemma {:induction false} JoinAsConcat(parts: seq<string>, sep: char)
    requires |parts| >= 1
    ensures Join(parts, sep) == Concat(Suffixed(parts[..|parts| - 1], sep)) + parts[|parts| - 1]
    decreases |parts|
  {
    var n := |parts|;
    if n == 1 {
      assert Suffixed(parts[..0], sep) == [];
    } else {
      var init := parts[..n - 1];
      assert parts == init + [parts[n - 1]];
      JoinSnoc(init, parts[n - 1], sep);
      JoinAsConcat(init, sep);
      assert init[..n - 2] == parts[..n - 2];
      assert Suffixed(parts[..n - 1], sep) == Suffixed(parts[..n - 2], sep) + [parts[n - 2] + [sep]];
      ConcatSnoc(Suffixed(parts[..n - 2], sep), parts[n - 2] + [sep]);
    }
  }

  lemma WithBreaksAppend(a: seq<string>, b: seq<string>)
    ensures WithBreaks(a + b) == WithBreaks(a) + WithBreaks(b)
  {
  }
}
