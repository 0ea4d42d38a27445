/** Newline-joined text, as Python's `"\n".join(lines)` builds it, and its
    inverse, splitting a text at every newline. */
module Lines {

  const Newline: char := '\n'

  /** No line of `lines` contains a newline of its own. */
  predicate NoNewlines(lines: seq<string>) {
    forall k :: 0 <= k < |lines| ==> Newline !in lines[k]
  }

  /** The lines with one newline between each two and none after the last. */
  function JoinLines(lines: seq<string>): string {
    if |lines| == 0 then ""
    else if |lines| == 1 then lines[0]
    else lines[0] + [Newline] + JoinLines(lines[1..])
  }

  /** The pieces of `s` between newlines; a text without newlines is one piece. */
  function SplitLines(s: string): (r: seq<string>)
    ensures |r| > 0
  {
    if |s| == 0 then [""]
    else if s[0] == Newline then [""] + SplitLines(s[1..])
    else
      var rest := SplitLines(s[1..]);
      [[s[0]] + rest[0]] + rest[1..]
  }

  /** Number of newlines in a text. */
  function CountNewlines(s: string): nat {
    if |s| == 0 then 0
    else (if s[0] == Newline then 1 else 0) + CountNewlines(s[1..])
  }

  lemma {:induction false} CountNewlinesAppend(a: string, b: string)
    ensures CountNewlines(a + b) == CountNewlines(a) + CountNewlines(b)
  {
    if |a| > 0 {
      assert (a + b)[1..] == a[1..] + b;
      CountNewlinesAppend(a[1..], b);
    } else {
      assert a + b == b;
    }
  }

  lemma {:induction false} CountNewlinesAbsent(s: string)
    requires Newline !in s
    ensures CountNewlines(s) == 0
  {
    if |s| > 0 {
      assert Newline !in s[1..] by {
        forall k | 0 <= k < |s[1..]| ensures s[1..][k] != Newline {
          assert s[1..][k] == s[k + 1];
        }
      }
      CountNewlinesAbsent(s[1..]);
    }
  }

  /** A text with no newline splits into itself alone. */
  lemma {:induction false} SplitWithoutNewline(s: string)
    requires Newline !in s
    ensures SplitLines(s) == [s]
  {
    if |s| > 0 {
      assert Newline !in s[1..] by {
        forall k | 0 <= k < |s[1..]| ensures s[1..][k] != Newline {
          assert s[1..][k] == s[k + 1];
        }
      }
      SplitWithoutNewline(s[1..]);
      assert [s[0]] + s[1..] == s;
    }
  }

  /** Splitting a line followed by a newline and more text yields that line
      followed by the pieces of the rest. */
  lemma {:induction false} SplitAfterLine(l: string, rest: string)
    requires Newline !in l
    ensures SplitLines(l + [Newline] + rest) == [l] + SplitLines(rest)
  {
    if |l| == 0 {
      assert l + [Newline] + rest == [Newline] + rest;
      assert ([Newline] + rest)[1..] == rest;
    } else {
      var s := l + [Newline] + rest;
      assert s[0] == l[0] != Newline;
      assert s[1..] == l[1..] + [Newline] + rest;
      assert Newline !in l[1..] by {
        forall k | 0 <= k < |l[1..]| ensures l[1..][k] != Newline {
          assert l[1..][k] == l[k + 1];
        }
      }
      SplitAfterLine(l[1..], rest);
      assert [l[0]] + l[1..] == l;
    }
  }

  /** Joining and splitting again gives back the lines, provided there is at
      least one line and none contains a newline (an empty list joins to "",
      which splits into one empty line). */
  lemma {:induction false} SplitJoinRoundTrip(lines: seq<string>)
    requires |lines| > 0 && NoNewlines(lines)
    ensures SplitLines(JoinLines(lines)) == lines
  {
    if |lines| == 1 {
      SplitWithoutNewline(lines[0]);
    } else {
      SplitAfterLine(lines[0], JoinLines(lines[1..]));
      SplitJoinRoundTrip(lines[1..]);
      assert [lines[0]] + lines[1..] == lines;
    }
  }

  /** The joined text has exactly one newline fewer than it has lines. */
  lemma {:induction false} JoinNewlineCount(lines: seq<string>)
    requires |lines| > 0 && NoNewlines(lines)
    ensures CountNewlines(JoinLines(lines)) == |lines| - 1
  {
    CountNewlinesAbsent(lines[0]);
    if |lines| > 1 {
      CountNewlinesAppend(lines[0] + [Newline], JoinLines(lines[1..]));
      CountNewlinesAppend(lines[0], [Newline]);
      JoinNewlineCount(lines[1..]);
    }
  }

  /** The joined text begins with the first line and ends with the last one,
      so it ends in a newline only if the last line is empty. */
  lemma {:induction false} JoinEnds(lines: seq<string>)
    requires |lines| > 0
    ensures lines[0] <= JoinLines(lines)
    ensures |lines[|lines| - 1]| <= |JoinLines(lines)|
    ensures JoinLines(lines)[|JoinLines(lines)| - |lines[|lines| - 1]|..] == lines[|lines| - 1]
  {
    if |lines| > 1 {
      JoinEnds(lines[1..]);
      var tail := JoinLines(lines[1..]);
      var j := lines[0] + [Newline] + tail;
      assert j[|j| - |tail|..] == tail;
      assert j[|j| - |lines[|lines| - 1]|..] == tail[|tail| - |lines[|lines| - 1]|..];
    }
  }
}
