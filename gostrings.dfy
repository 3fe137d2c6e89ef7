/**
 * The parts of Go's `strings` package that the wrapper relies on, with Go's
 * semantics: `strings.Split` with a one-character separator, `strings.Join`,
 * `strings.TrimSpace` (Unicode white space, as `unicode.IsSpace` defines it)
 * and `strings.HasPrefix`. Text is a sequence of Unicode code points.
 */
module GoStrings {

  const Newline: char := '\n'

  /**
   * Go's `unicode.IsSpace`: the Latin-1 spaces plus the White_Space code
   * points above U+00FF. Among ASCII characters it is exactly tab, line feed,
   * vertical tab, form feed, carriage return and space.
   */
  predicate IsSpace(c: char)
    ensures c < '\U{0080}' ==> (IsSpace(c) <==> ('\t' <= c <= '\r' || c == ' '))
  {
    || c == '\t' || c == '\n' || c == '\U{000B}' || c == '\U{000C}' || c == '\r' || c == ' '
    || c == '\U{0085}' || c == '\U{00A0}' || c == '\U{1680}'
    || ('\U{2000}' <= c <= '\U{200A}')
    || c == '\U{2028}' || c == '\U{2029}' || c == '\U{202F}' || c == '\U{205F}' || c == '\U{3000}'
  }

  /** Go's `strings.HasPrefix`: `s` begins with `prefix`, character by character. */
  predicate HasPrefix(s: string, prefix: string)
    ensures HasPrefix(s, prefix) <==> |prefix| <= |s| && forall i :: 0 <= i < |prefix| ==> s[i] == prefix[i]
  {
    |prefix| <= |s| && s[..|prefix|] == prefix
  }

  /** Drops the leading white space (Go's `strings.TrimLeftFunc(s, unicode.IsSpace)`). */
  function TrimLeft(s: string): (r: string)
    ensures |r| <= |s|
    ensures r != [] ==> !IsSpace(r[0])
  {
    if s != [] && IsSpace(s[0]) then TrimLeft(s[1..]) else s
  }

  /** `TrimLeft` keeps a suffix and cuts off only white space. */
  lemma {:induction false} TrimLeftSuffix(s: string)
    ensures var r := TrimLeft(s);
            r == s[|s| - |r|..] && forall k :: 0 <= k < |s| - |r| ==> IsSpace(s[k])
  {
    if s != [] && IsSpace(s[0]) {
      TrimLeftSuffix(s[1..]);
    }
  }

  /** Drops the trailing white space (Go's `strings.TrimRightFunc(s, unicode.IsSpace)`). */
  function TrimRight(s: string): (r: string)
    ensures |r| <= |s|
    ensures r != [] ==> !IsSpace(r[|r| - 1])
  {
    if s != [] && IsSpace(s[|s| - 1]) then TrimRight(s[..|s| - 1]) else s
  }

  /** `TrimRight` keeps a prefix and cuts off only white space. */
  lemma {:induction false} TrimRightPrefix(s: string)
    ensures var r := TrimRight(s);
            r == s[..|r|] && forall k :: |r| <= k < |s| ==> IsSpace(s[k])
  {
    if s != [] && IsSpace(s[|s| - 1]) {
      TrimRightPrefix(s[..|s| - 1]);
    }
  }

  /** Go's `strings.TrimSpace`: white space cut off at both ends. */
  function TrimSpace(s: string): (r: string)
    ensures |r| <= |s|
    ensures r != [] ==> !IsSpace(r[0]) && !IsSpace(r[|r| - 1])
  {
    TrimRightPrefix(TrimLeft(s));
    TrimRight(TrimLeft(s))
  }

  /**
   * What `TrimSpace` keeps is an infix of its input, and everything it cuts
   * off on either side is white space.
   */
  lemma TrimSpaceInfix(s: string)
    ensures var r := TrimSpace(s);
            exists i, j :: 0 <= i <= j <= |s| && r == s[i..j]
                           && (forall k :: 0 <= k < i ==> IsSpace(s[k]))
                           && (forall k :: j <= k < |s| ==> IsSpace(s[k]))
  {
    var left := TrimLeft(s);
    var r := TrimRight(left);
    var i := |s| - |left|;
    TrimLeftSuffix(s);
    TrimRightPrefix(left);
    assert r == s[i..i + |r|];
    assert forall k :: i + |r| <= k < |s| ==> IsSpace(s[k]) by {
      forall k | i + |r| <= k < |s| ensures IsSpace(s[k]) { assert s[k] == left[k - i]; }
    }
  }

  /** Trimming a trimmed string changes nothing. */
  lemma TrimSpaceIdempotent(s: string)
    ensures TrimSpace(TrimSpace(s)) == TrimSpace(s)
  {
    var t := TrimSpace(s);
    assert TrimLeft(t) == t;
    assert TrimRight(t) == t;
  }

  /** Go's `strings.Join(lines, "\n")`. */
  function JoinLines(lines: seq<string>): string
  {
    if |lines| == 0 then ""
    else if |lines| == 1 then lines[0]
    else lines[0] + [Newline] + JoinLines(lines[1..])
  }

  /** No piece holds the separator. */
  predicate NoNewlines(lines: seq<string>) {
    forall i, k :: 0 <= i < |lines| && 0 <= k < |lines[i]| ==> lines[i][k] != Newline
  }

  /**
   * Go's `strings.Split(s, "\n")`: the pieces between consecutive newlines.
   * There is always at least one piece: the empty string splits to `[""]`.
   */
  function Split(s: string): (r: seq<string>)
    ensures |r| >= 1
  {
    if s == [] then [""]
    else if s[0] == Newline then [""] + Split(s[1..])
    else
      var rest := Split(s[1..]);
      [[s[0]] + rest[0]] + rest[1..]
  }

  /** No piece of a split holds a newline. */
  lemma {:induction false} SplitNoNewlines(s: string)
    ensures NoNewlines(Split(s))
  {
    if s != [] {
      SplitNoNewlines(s[1..]);
      var rest := Split(s[1..]);
      var r := Split(s);
      if s[0] != Newline {
        assert forall k :: 0 <= k < |r[0]| ==> r[0][k] != Newline by {
          forall k | 0 <= k < |r[0]| ensures r[0][k] != Newline {
            if k > 0 { assert r[0][k] == rest[0][k - 1]; }
          }
        }
        forall i, k | 0 <= i < |r| && 0 <= k < |r[i]| ensures r[i][k] != Newline {
          if i > 0 { assert r[i] == rest[i]; }
        }
      } else {
        forall i, k | 0 <= i < |r| && 0 <= k < |r[i]| ensures r[i][k] != Newline {
          assert r[i] == rest[i - 1];
        }
      }
    }
  }

  /** Joining the pieces of a split gives back the string. */
  lemma {:induction false} JoinSplit(s: string)
    ensures JoinLines(Split(s)) == s
  {
    if s != [] {
      JoinSplit(s[1..]);
      var rest := Split(s[1..]);
      var r := Split(s);
      if s[0] == Newline {
        assert r[1..] == rest;
        assert s == [Newline] + s[1..];
      } else if |rest| == 1 {
        assert s == [s[0]] + rest[0];
      } else {
        calc {
          JoinLines(r);
          r[0] + [Newline] + JoinLines(r[1..]);
          { assert r[1..] == rest[1..]; }
          [s[0]] + rest[0] + [Newline] + JoinLines(rest[1..]);
          [s[0]] + (rest[0] + [Newline] + JoinLines(rest[1..]));
          [s[0]] + JoinLines(rest);
          s;
        }
      }
    }
  }

  /** Splitting undoes joining whenever no piece holds a newline. */
  lemma {:induction false} SplitJoinLines(lines: seq<string>)
    requires |lines| >= 1 && NoNewlines(lines)
    ensures Split(JoinLines(lines)) == lines
  {
    var s := JoinLines(lines);
    if |lines| == 1 {
      SplitNoNewline(lines[0]);
    } else {
      var rest := lines[1..];
      assert NoNewlines(rest) by {
        forall i, k | 0 <= i < |rest| && 0 <= k < |rest[i]| ensures rest[i][k] != Newline {
          assert rest[i] == lines[i + 1];
        }
      }
      SplitJoinLines(rest);
      assert s == lines[0] + [Newline] + JoinLines(rest);
      assert forall k :: 0 <= k < |lines[0]| ==> lines[0][k] != Newline;
      SplitConcat(lines[0], JoinLines(rest));
      SplitNoNewline(lines[0]);
    }
  }

  /** A string without newlines is a single piece. */
  lemma {:induction false} SplitNoNewline(s: string)
    requires forall k :: 0 <= k < |s| ==> s[k] != Newline
    ensures Split(s) == [s]
  {
    if s != [] {
      SplitNoNewline(s[1..]);
      assert [s[0]] + s[1..] == s;
    }
  }

  /** Splitting `a + "\n" + b` gives the pieces of `a` followed by the pieces of `b`. */
  lemma {:induction false} SplitConcat(a: string, b: string)
    requires forall k :: 0 <= k < |a| ==> a[k] != Newline
    ensures Split(a + [Newline] + b) == [a] + Split(b)
  {
    var s := a + [Newline] + b;
    if a == [] {
      assert s[1..] == b;
    } else {
      assert s[0] == a[0];
      assert s[1..] == a[1..] + [Newline] + b;
      SplitConcat(a[1..], b);
      assert [a[0]] + a[1..] == a;
    }
  }

  /** Appending one more line after a newline appends exactly one piece. */
  lemma SplitAppendLine(s: string, line: string)
    requires forall k :: 0 <= k < |line| ==> line[k] != Newline
    ensures Split(s + [Newline] + line) == Split(s) + [line]
  {
    var lines := Split(s);
    var ext := lines + [line];
    SplitNoNewlines(s);
    assert NoNewlines(ext) by {
      forall i, k | 0 <= i < |ext| && 0 <= k < |ext[i]| ensures ext[i][k] != Newline {
        if i < |lines| { assert ext[i] == lines[i]; }
      }
    }
    JoinSplit(s);
    JoinLinesSnoc(lines, line);
    SplitJoinLines(ext);
  }

  lemma {:induction false} JoinLinesSnoc(lines: seq<string>, line: string)
    requires |lines| >= 1
    ensures JoinLines(lines + [line]) == JoinLines(lines) + [Newline] + line
  {
    if |lines| == 1 {
      assert lines + [line] == [lines[0], line];
    } else {
      assert (lines + [line])[1..] == lines[1..] + [line];
      JoinLinesSnoc(lines[1..], line);
    }
  }
}
