/**
 * The string operations the announcement parser is built from: Rust's `str::trim`, the
 * splitting of a payload into lines, the filter that keeps the non-blank trimmed lines,
 * and `str::split_once(':')`.
 */
module Text {
  import opened Wrappers

  /** Rust's `char::is_whitespace`: the code points with the Unicode White_Space property. */
  predicate IsWhitespace(c: char) {
    var n := c as int;
    (0x09 <= n <= 0x0D) || n == 0x20 || n == 0x85 || n == 0xA0 || n == 0x1680
    || (0x2000 <= n <= 0x200A) || n == 0x2028 || n == 0x2029 || n == 0x202F
    || n == 0x205F || n == 0x3000
  }

  ghost predicate AllWhitespace(s: string) {
    forall i :: 0 <= i < |s| ==> IsWhitespace(s[i])
  }

  /** Neither end of `s` is whitespace (so trimming `s` gives `s` back). */
  ghost predicate IsTrimmed(s: string) {
    s == [] || (!IsWhitespace(s[0]) && !IsWhitespace(s[|s| - 1]))
  }

  /** `str::trim_start`: `s` without its leading whitespace (properties in `TrimStartSpec`). */
  function TrimStart(s: string): string {
    if s != [] && IsWhitespace(s[0]) then TrimStart(s[1..]) else s
  }

  /** `str::trim_end`: `s` without its trailing whitespace (properties in `TrimEndSpec`). */
  function TrimEnd(s: string): string {
    if s != [] && IsWhitespace(s[|s| - 1]) then TrimEnd(s[..|s| - 1]) else s
  }

  /** `trim_start` keeps a suffix, removes only whitespace, and stops at a non-whitespace. */
  lemma {:induction false} TrimStartSpec(s: string)
    ensures |TrimStart(s)| <= |s| && TrimStart(s) == s[|s| - |TrimStart(s)|..]
    ensures forall k :: 0 <= k < |s| - |TrimStart(s)| ==> IsWhitespace(s[k])
    ensures TrimStart(s) == [] || !IsWhitespace(TrimStart(s)[0])
  {
    if s != [] && IsWhitespace(s[0]) {
      TrimStartSpec(s[1..]);
      var r := TrimStart(s[1..]);
      assert forall k :: 1 <= k < |s| - |r| ==> s[k] == s[1..][k - 1];
    }
  }

  /** `trim_end` keeps a prefix, removes only whitespace, and stops at a non-whitespace. */
  lemma {:induction false} TrimEndSpec(s: string)
    ensures |TrimEnd(s)| <= |s| && TrimEnd(s) == s[..|TrimEnd(s)|]
    ensures forall k :: |TrimEnd(s)| <= k < |s| ==> IsWhitespace(s[k])
    ensures TrimEnd(s) == [] || !IsWhitespace(TrimEnd(s)[|TrimEnd(s)| - 1])
  {
    if s != [] && IsWhitespace(s[|s| - 1]) {
      TrimEndSpec(s[..|s| - 1]);
      var r := TrimEnd(s[..|s| - 1]);
      assert forall k :: |r| <= k < |s| - 1 ==> s[k] == s[..|s| - 1][k];
    }
  }

  /** `str::trim`: `s` without whitespace at either end (properties in `TrimSpec`). */
  function Trim(s: string): string {
    TrimEnd(TrimStart(s))
  }

  /** Where the trimmed text starts in `s`. */
  function TrimOffset(s: string): int {
    |s| - |TrimStart(s)|
  }

  /**
   * Trimming gives the infix of `s` that starts at `TrimOffset(s)`: everything before and
   * after it is whitespace, and the infix itself does not start or end with whitespace.
   */
  lemma TrimSpec(s: string)
    ensures 0 <= TrimOffset(s) <= TrimOffset(s) + |Trim(s)| <= |s|
    ensures Trim(s) == s[TrimOffset(s)..TrimOffset(s) + |Trim(s)|]
    ensures forall k :: 0 <= k < TrimOffset(s) ==> IsWhitespace(s[k])
    ensures forall k :: TrimOffset(s) + |Trim(s)| <= k < |s| ==> IsWhitespace(s[k])
    ensures IsTrimmed(Trim(s))
  {
    var t, r, i := TrimStart(s), Trim(s), TrimOffset(s);
    assert t == s[i..] && forall k :: 0 <= k < i ==> IsWhitespace(s[k]) by {
      TrimStartSpec(s);
    }
    assert r == t[..|r|] && forall k :: |r| <= k < |t| ==> IsWhitespace(t[k]) by {
      TrimEndSpec(t);
    }
    assert r == s[i..i + |r|];
    assert forall k :: i + |r| <= k < |s| ==> IsWhitespace(s[k]) by {
      assert forall k :: i + |r| <= k < |s| ==> s[k] == t[k - i];
    }
    assert IsTrimmed(r) by {
      TrimStartSpec(s);
      TrimEndSpec(t);
      if r != [] {
        assert r[0] == t[0];
      }
    }
  }

  /** Trimming leaves nothing exactly when `s` is all whitespace. */
  lemma TrimEmpty(s: string)
    ensures Trim(s) == [] <==> AllWhitespace(s)
  {
    var t, r, i := TrimStart(s), Trim(s), TrimOffset(s);
    TrimStartSpec(s);
    TrimEndSpec(t);
    assert t == s[i..];
    if r != [] {
      assert r[0] == s[i];
    }
  }

  /** Trimming a trimmed string changes nothing, so trimming twice is trimming once. */
  lemma TrimOfTrimmed(s: string)
    requires IsTrimmed(s)
    ensures Trim(s) == s
  {
    if s != [] {
      assert TrimStart(s) == s;
      TrimEndSpec(s);
    }
  }

  /**
   * The pieces of `s` between '\n' characters (as `str::split('\n')`). Rust's `lines()` also
   * drops a '\r' before each '\n' and the empty piece after a final '\n'; the trim and the
   * blank-line filter that follow remove both anyway.
   */
  function SplitLines(s: string): (r: seq<string>)
    ensures |r| >= 1
  {
    if s == [] then [[]]
    else
      var rest := SplitLines(s[1..]);
      if s[0] == '\n' then [[]] + rest
      else [[s[0]] + rest[0]] + rest[1..]
  }

  /** No piece contains '\n', and joining the pieces with '\n' gives `s` back. */
  lemma {:induction false} SplitLinesSpec(s: string)
    ensures forall i :: 0 <= i < |SplitLines(s)| ==> '\n' !in SplitLines(s)[i]
    ensures Join(SplitLines(s)) == s
  {
    if s != [] {
      var rest := SplitLines(s[1..]);
      SplitLinesSpec(s[1..]);
      var r := SplitLines(s);
      if s[0] == '\n' {
        assert r == [[]] + rest && r[1..] == rest;
        assert forall i :: 1 <= i < |r| ==> r[i] == rest[i - 1];
      } else {
        assert r[1..] == rest[1..];
        assert forall i :: 1 <= i < |r| ==> r[i] == rest[i];
        if |rest| > 1 {
          assert Join(rest) == rest[0] + "\n" + Join(rest[1..]);
          assert Join(r) == ([s[0]] + rest[0]) + "\n" + Join(rest[1..]);
        }
      }
    }
  }

  /** The pieces joined back together with '\n' between them. */
  function Join(lines: seq<string>): string
    requires |lines| >= 1
  {
    if |lines| == 1 then lines[0] else lines[0] + "\n" + Join(lines[1..])
  }

  /** Splitting then joining is the identity, and so is joining then splitting. */
  lemma {:induction false} JoinSplitLines(lines: seq<string>)
    requires |lines| >= 1
    requires forall i :: 0 <= i < |lines| ==> '\n' !in lines[i]
    ensures SplitLines(Join(lines)) == lines
  {
    if |lines| == 1 {
      SplitLinesOfLine(lines[0]);
    } else {
      var tail := Join(lines[1..]);
      JoinSplitLines(lines[1..]);
      SplitLinesPrepend(lines[0], tail);
    }
  }

  lemma {:induction false} SplitLinesOfLine(s: string)
    requires '\n' !in s
    ensures SplitLines(s) == [s]
  {
    if s != [] {
      SplitLinesOfLine(s[1..]);
      assert s[0] != '\n';
      assert [s[0]] + s[1..] == s;
    }
  }

  lemma {:induction false} SplitLinesPrepend(a: string, b: string)
    requires '\n' !in a
    ensures SplitLines(a + "\n" + b) == [a] + SplitLines(b)
  {
    if a == [] {
      assert a + "\n" + b == "\n" + b;
      assert ("\n" + b)[1..] == b;
    } else {
      var s := a + "\n" + b;
      assert s[0] == a[0] && s[1..] == a[1..] + "\n" + b;
      SplitLinesPrepend(a[1..], b);
      var rest := SplitLines(s[1..]);
      assert rest == [a[1..]] + SplitLines(b);
      assert [a[0]] + a[1..] == a;
      assert rest[1..] == SplitLines(b);
    }
  }

  /**
   * The `filter_map` over the lines: every line trimmed, the empty results dropped, order kept.
   */
  function NonBlank(lines: seq<string>): seq<string> {
    if lines == [] then []
    else
      var t := Trim(lines[0]);
      (if t == [] then [] else [t]) + NonBlank(lines[1..])
  }

  /** The filter keeps at most every line, and what it keeps is non-empty and trimmed. */
  lemma {:induction false} NonBlankSpec(lines: seq<string>)
    ensures |NonBlank(lines)| <= |lines|
    ensures forall i :: 0 <= i < |NonBlank(lines)| ==> NonBlank(lines)[i] != [] && IsTrimmed(NonBlank(lines)[i])
  {
    if lines != [] {
      TrimSpec(lines[0]);
      NonBlankSpec(lines[1..]);
    }
  }

  /** The filter works line by line: filtering a concatenation concatenates the results. */
  lemma {:induction false} NonBlankAppend(a: seq<string>, b: seq<string>)
    ensures NonBlank(a + b) == NonBlank(a) + NonBlank(b)
    decreases |a|
  {
    if a == [] {
      assert a + b == b;
    } else {
      var ab := a + b;
      assert ab[0] == a[0] && ab[1..] == a[1..] + b;
      NonBlankAppend(a[1..], b);
      var head := if Trim(a[0]) == [] then [] else [Trim(a[0])];
      assert NonBlank(ab) == head + NonBlank(a[1..] + b);
      assert head + (NonBlank(a[1..]) + NonBlank(b)) == (head + NonBlank(a[1..])) + NonBlank(b);
    }
  }

  /** One line is kept as its trim, unless it is blank. */
  lemma NonBlankSingle(line: string)
    ensures Trim(line) == [] ==> NonBlank([line]) == []
    ensures Trim(line) != [] ==> NonBlank([line]) == [Trim(line)]
  {
    assert [line][1..] == [];
  }

  /**
   * After blank lines only, the first non-blank line comes out first, as its trim, followed by
   * the filtered rest.
   */
  lemma {:induction false} NonBlankFirst(lines: seq<string>, j: nat)
    requires j < |lines|
    requires forall i :: 0 <= i < j ==> AllWhitespace(lines[i])
    requires !AllWhitespace(lines[j])
    ensures NonBlank(lines) == [Trim(lines[j])] + NonBlank(lines[j + 1..])
  {
    TrimEmpty(lines[0]);
    if j > 0 {
      var rest := lines[1..];
      assert rest[j - 1] == lines[j] && rest[j..] == lines[j + 1..];
      assert forall i :: 0 <= i < j - 1 ==> rest[i] == lines[i + 1];
      NonBlankFirst(rest, j - 1);
    }
  }

  /** A payload has no non-blank line exactly when every character of it is whitespace. */
  lemma {:induction false} BlankPayload(s: string)
    ensures NonBlank(SplitLines(s)) == [] <==> AllWhitespace(s)
  {
    var lines := SplitLines(s);
    SplitLinesSpec(s);
    NonBlankEmpty(lines);
    JoinWhitespace(lines);
  }

  lemma {:induction false} NonBlankEmpty(lines: seq<string>)
    ensures NonBlank(lines) == [] <==> forall i :: 0 <= i < |lines| ==> AllWhitespace(lines[i])
  {
    if lines != [] {
      TrimEmpty(lines[0]);
      NonBlankEmpty(lines[1..]);
      assert forall i :: 1 <= i < |lines| ==> lines[i] == lines[1..][i - 1];
    }
  }

  lemma {:induction false} JoinWhitespace(lines: seq<string>)
    requires |lines| >= 1
    ensures AllWhitespace(Join(lines)) <==> forall i :: 0 <= i < |lines| ==> AllWhitespace(lines[i])
  {
    if |lines| > 1 {
      JoinWhitespace(lines[1..]);
      var j := Join(lines);
      var a, t := lines[0], Join(lines[1..]);
      assert j == a + "\n" + t;
      assert forall k :: 0 <= k < |a| ==> j[k] == a[k];
      assert forall k :: 0 <= k < |t| ==> j[|a| + 1 + k] == t[k];
      assert IsWhitespace(j[|a|]);
      assert forall i :: 1 <= i < |lines| ==> lines[i] == lines[1..][i - 1];
      if AllWhitespace(a) && AllWhitespace(t) {
        forall k | 0 <= k < |j| ensures IsWhitespace(j[k]) {
          if k < |a| {
          } else if k > |a| {
            assert j[k] == t[k - |a| - 1];
          }
        }
      }
    }
  }

  /**
   * `str::split_once(sep)`: `None` when `sep` does not occur, otherwise the text before the
   * FIRST occurrence and the text after it, so the second part may contain `sep` again.
   */
  function SplitOnce(s: string, sep: char): Option<(string, string)> {
    if s == [] then None
    else if s[0] == sep then Some(([], s[1..]))
    else match SplitOnce(s[1..], sep)
      case None => None
      case Some((a, b)) => Some(([s[0]] + a, b))
  }

  /** The split happens at the first `sep`, and only when there is one. */
  lemma {:induction false} SplitOnceSpec(s: string, sep: char)
    ensures SplitOnce(s, sep).None? <==> sep !in s
    ensures SplitOnce(s, sep).Some? ==>
            s == SplitOnce(s, sep).value.0 + [sep] + SplitOnce(s, sep).value.1
            && sep !in SplitOnce(s, sep).value.0
  {
    if s != [] && s[0] != sep {
      SplitOnceSpec(s[1..], sep);
      assert s == [s[0]] + s[1..];
    }
  }

  /** The split is unique: any `a + [sep] + b` with no `sep` in `a` splits into `a` and `b`. */
  lemma {:induction false} SplitOnceOf(a: string, sep: char, b: string)
    requires sep !in a
    ensures SplitOnce(a + [sep] + b, sep) == Some((a, b))
  {
    var s := a + [sep] + b;
    if a == [] {
      assert s[0] == sep && s[1..] == b;
    } else {
      assert s[0] == a[0] && s[1..] == a[1..] + [sep] + b;
      SplitOnceOf(a[1..], sep, b);
      assert [a[0]] + a[1..] == a;
    }
  }
}
