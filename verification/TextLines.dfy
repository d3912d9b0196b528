/** Splitting a file into lines, as `getline` does. */
module TextLines {
  /** The lines of a file; what stands behind the last line end, if anything, is a line of its own. */
  function Lines<T(==)>(s: seq<T>, end: T): seq<seq<T>> {
    if s == [] then []
    else
      var n := LineLength(s, end);
      if n == |s| then [s] else [s[..n]] + Lines(s[n + 1..], end)
  }

  function LineLength<T(==)>(s: seq<T>, end: T): (n: nat)
    ensures n <= |s|
  {
    if s == [] || s[0] == end then 0 else 1 + LineLength(s[1..], end)
  }

  /** Every line followed by the line end. */
  function Joined<T>(lines: seq<seq<T>>, end: T): seq<T> {
    if lines == [] then [] else lines[0] + [end] + Joined(lines[1..], end)
  }

  lemma {:induction false} LineEnds<T>(line: seq<T>, rest: seq<T>, end: T)
    requires end !in line
    ensures LineLength(line + [end] + rest, end) == |line|
  {
    var s := line + [end] + rest;
    if line != [] {
      assert forall b :: b in line[1..] ==> b in line;
      LineEnds(line[1..], rest, end);
      assert s[1..] == line[1..] + [end] + rest;
    }
  }

  lemma LinesFirst<T>(line: seq<T>, rest: seq<T>, end: T)
    requires end !in line
    ensures Lines(line + [end] + rest, end) == [line] + Lines(rest, end)
  {
    hide LineLength;
    var s := line + [end] + rest;
    LineEnds(line, rest, end);
    assert s[..|line|] == line && s[|line| + 1..] == rest;
  }

  lemma NoLines<T>(end: T)
    ensures Lines([], end) == []
  {
  }

  /** What stands behind the last line end is a line of its own. */
  lemma {:induction false} LastLine<T>(s: seq<T>, end: T)
    requires end !in s
    ensures Lines(s, end) == if s == [] then [] else [s]
  {
    WholeLength(s, end);
  }

  lemma {:induction false} WholeLength<T>(s: seq<T>, end: T)
    requires end !in s
    ensures LineLength(s, end) == |s|
  {
    if s != [] {
      WholeLength(s[1..], end);
    }
  }

  /** Lines without a line end inside come back as they were written. */
  lemma {:induction false} JoinedSplits<T>(lines: seq<seq<T>>, end: T)
    requires forall line :: line in lines ==> end !in line
    ensures Lines(Joined(lines, end), end) == lines
  {
    if lines != [] {
      assert lines[0] in lines && forall line :: line in lines[1..] ==> line in lines;
      JoinedSplits(lines[1..], end);
      LinesFirst(lines[0], Joined(lines[1..], end), end);
    }
  }

  lemma {:induction false} JoinedSnoc<T>(lines: seq<seq<T>>, line: seq<T>, end: T)
    ensures Joined(lines + [line], end) == Joined(lines, end) + line + [end]
  {
    if lines == [] {
      assert lines + [line] == [line];
    } else {
      JoinedSnoc(lines[1..], line, end);
      assert (lines + [line])[0] == lines[0] && (lines + [line])[1..] == lines[1..] + [line];
    }
  }

  /** No line contains the line end. */
  lemma {:induction false} LinesClean<T>(s: seq<T>, end: T)
    ensures forall line :: line in Lines(s, end) ==> end !in line
    decreases |s|
  {
    if s != [] {
      var n := LineLength(s, end);
      LineClean(s, end);
      if n < |s| {
        LinesClean(s[n + 1..], end);
      } else {
        assert s[..n] == s;
      }
    }
  }

  lemma {:induction false} LineClean<T>(s: seq<T>, end: T)
    ensures end !in s[..LineLength(s, end)]
  {
    if s != [] && s[0] != end {
      LineClean(s[1..], end);
      assert s[..LineLength(s, end)] == [s[0]] + s[1..][..LineLength(s[1..], end)];
    }
  }

  lemma {:induction false} FirstLine<T>(s: seq<T>, end: T) returns (line: seq<T>, rest: seq<T>)
    requires end in s
    ensures s == line + [end] + rest && end !in line
  {
    if s[0] == end {
      line, rest := [], s[1..];
    } else {
      assert end in s[1..] by {
        var i :| 0 <= i < |s| && s[i] == end;
        assert s[1..][i - 1] == end;
      }
      line, rest := FirstLine(s[1..], end);
      line := [s[0]] + line;
    }
  }

  /** Appending to a file of complete lines never disturbs them. */
  lemma {:induction false} AppendingKeepsLines<T>(held: seq<T>, added: seq<T>, end: T)
    requires held == [] || held[|held| - 1] == end
    ensures Lines(held + added, end) == Lines(held, end) + Lines(added, end)
    decreases |held|
  {
    hide Lines;
    if held == [] {
      NoLines(end);
      assert held + added == added;
    } else {
      var line, rest := FirstLine(held, end);
      assert rest != [] ==> rest[|rest| - 1] == held[|held| - 1];
      LinesFirst(line, rest, end);
      LinesFirst(line, rest + added, end);
      AppendingKeepsLines(rest, added, end);
      assert held + added == line + [end] + (rest + added);
    }
  }

  lemma {:induction false} JoinedConcat<T>(a: seq<seq<T>>, b: seq<seq<T>>, end: T)
    ensures Joined(a + b, end) == Joined(a, end) + Joined(b, end)
  {
    if a == [] {
      assert a + b == b;
    } else {
      JoinedConcat(a[1..], b, end);
      assert (a + b)[0] == a[0] && (a + b)[1..] == a[1..] + b;
    }
  }
}
