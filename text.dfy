/**
 * The string operations the flows use: `str.split(sep)`, `sep.join(...)`,
 * `str.strip()`, `str.startswith(...)` and the whitespace `str.split()`.
 * Whitespace is the fixed set below; Python counts further characters as
 * whitespace, such as `\x1c`-`\x1f`, `\x85` and `\xa0`, and those are not
 * modelled.
 */
module Text {

  predicate IsWhitespace(c: char) {
    c == ' ' || c == '\t' || c == '\n' || c == '\r' || c == '\U{000B}' || c == '\U{000C}'
  }

  predicate StartsWith(s: string, prefix: string) {
    |prefix| <= |s| && s[..|prefix|] == prefix
  }

  /** `s.lstrip()` */
  function LStrip(s: string): (r: string)
    ensures |r| <= |s|
    ensures r == [] || !IsWhitespace(r[0])
  {
    if s != [] && IsWhitespace(s[0]) then LStrip(s[1..]) else s
  }

  /** `s.rstrip()` */
  function RStrip(s: string): string
  {
    if s != [] && IsWhitespace(s[|s| - 1]) then RStrip(s[..|s| - 1]) else s
  }

  /** `s.strip()` */
  function Strip(s: string): string {
    RStrip(LStrip(s))
  }

  /** `lstrip` keeps a suffix and drops only whitespace. */
  lemma {:induction false} LStripSuffix(s: string)
    ensures LStrip(s) == s[|s| - |LStrip(s)|..]
    ensures forall k :: 0 <= k < |s| - |LStrip(s)| ==> IsWhitespace(s[k])
  {
    if s != [] && IsWhitespace(s[0]) {
      LStripSuffix(s[1..]);
    }
  }

  /** `rstrip` keeps a prefix that does not end in whitespace, and drops
      only whitespace. */
  lemma {:induction false} RStripPrefix(s: string)
    ensures |RStrip(s)| <= |s| && RStrip(s) == s[..|RStrip(s)|]
    ensures RStrip(s) == [] || !IsWhitespace(RStrip(s)[|RStrip(s)| - 1])
    ensures forall k :: |RStrip(s)| <= k < |s| ==> IsWhitespace(s[k])
  {
    if s != [] && IsWhitespace(s[|s| - 1]) {
      RStripPrefix(s[..|s| - 1]);
    }
  }

  /** The stripped string is no longer than the original and has no
      whitespace at either end. */
  lemma StripEdges(s: string)
    ensures |Strip(s)| <= |s|
    ensures Strip(s) == [] || (!IsWhitespace(Strip(s)[0]) && !IsWhitespace(Strip(s)[|Strip(s)| - 1]))
  {
    RStripPrefix(LStrip(s));
  }

  /** `s.strip()` is the middle of `s`: what is left once the whitespace at
      both ends is removed. */
  lemma StripSlice(s: string)
    ensures exists i, j ::
              && 0 <= i <= j <= |s| && Strip(s) == s[i..j]
              && (forall k :: 0 <= k < i ==> IsWhitespace(s[k]))
              && (forall k :: j <= k < |s| ==> IsWhitespace(s[k]))
  {
    var t := LStrip(s);
    LStripSuffix(s);
    RStripPrefix(t);
    var i := |s| - |t|;
    var j := i + |RStrip(t)|;
    assert t == s[i..];
    assert Strip(s) == s[i..j] by {
      assert s[i..j] == s[i..][..|RStrip(t)|];
    }
    forall k | j <= k < |s|
      ensures IsWhitespace(s[k])
    {
      assert s[k] == t[k - i];
    }
  }

  /** A string with no whitespace at either end is its own strip. */
  lemma StripNoEdgeWhitespace(s: string)
    requires s != [] && !IsWhitespace(s[0]) && !IsWhitespace(s[|s| - 1])
    ensures Strip(s) == s
  {
  }

  /** Position of the first `sep` in `s`. */
  function FirstIndexOf(s: string, sep: char): (i: nat)
    requires sep in s
    ensures i < |s| && s[i] == sep && sep !in s[..i]
  {
    if s[0] == sep then 0 else 1 + FirstIndexOf(s[1..], sep)
  }

  /** Python's `s.split(sep)` for a one-character separator: never empty,
      and an empty piece wherever two separators meet or one ends `s`. */
  function Split(s: string, sep: char): (r: seq<string>)
    ensures |r| >= 1
    decreases |s|
  {
    if sep !in s then [s]
    else
      var i := FirstIndexOf(s, sep);
      [s[..i]] + Split(s[i + 1..], sep)
  }

  /** No piece of a split holds the separator. */
  lemma {:induction false} SplitPartsLackSeparator(s: string, sep: char)
    ensures forall k :: 0 <= k < |Split(s, sep)| ==> sep !in Split(s, sep)[k]
    decreases |s|
  {
    if sep in s {
      var i := FirstIndexOf(s, sep);
      SplitPartsLackSeparator(s[i + 1..], sep);
    }
  }

  /** Python's `sep.join(parts)`. */
  function Join(parts: seq<string>, sep: char): string {
    if |parts| == 0 then ""
    else if |parts| == 1 then parts[0]
    else parts[0] + [sep] + Join(parts[1..], sep)
  }

  /** Joining on `sep` undoes splitting on `sep`. */
  lemma {:induction false} JoinSplit(s: string, sep: char)
    ensures Join(Split(s, sep), sep) == s
    decreases |s|
  {
    if sep in s {
      var i := FirstIndexOf(s, sep);
      var rest := Split(s[i + 1..], sep);
      var parts := [s[..i]] + rest;
      JoinSplit(s[i + 1..], sep);
      assert Split(s, sep) == parts;
      assert parts[1..] == rest;
      assert Join(parts, sep) == s[..i] + [sep] + Join(rest, sep);
      assert s == s[..i] + [sep] + s[i + 1..];
    }
  }

  /** Splitting undoes joining, when no part holds the separator. */
  lemma {:induction false} SplitJoin(parts: seq<string>, sep: char)
    requires |parts| >= 1
    requires forall k :: 0 <= k < |parts| ==> sep !in parts[k]
    ensures Split(Join(parts, sep), sep) == parts
  {
    if |parts| > 1 {
      var tail := Join(parts[1..], sep);
      var n := |parts[0]|;
      var s := parts[0] + [sep] + tail;
      assert sep !in parts[0];
      assert forall j :: 0 <= j < n ==> s[j] == parts[0][j];
      FirstIndexAt(s, sep, n);
      assert s[..n] == parts[0];
      assert s[n + 1..] == tail;
      assert Split(s, sep) == [parts[0]] + Split(tail, sep);
      SplitJoin(parts[1..], sep);
      assert parts == [parts[0]] + parts[1..];
    }
  }

  /** The first `sep` is at `n` when `s[n]` is one and no earlier character is. */
  lemma {:induction false} FirstIndexAt(s: string, sep: char, n: nat)
    requires n < |s| && s[n] == sep
    requires forall j :: 0 <= j < n ==> s[j] != sep
    ensures sep in s && FirstIndexOf(s, sep) == n
  {
    if n > 0 {
      FirstIndexAt(s[1..], sep, n - 1);
    }
  }

  /** A non-empty run of non-whitespace characters. */
  predicate IsWord(w: string) {
    w != [] && forall k :: 0 <= k < |w| ==> !IsWhitespace(w[k])
  }

  /** The longest whitespace-free prefix of `s`. */
  function Token(s: string): (w: string)
    ensures |w| <= |s| && w == s[..|w|]
    ensures forall k :: 0 <= k < |w| ==> !IsWhitespace(w[k])
    ensures |w| < |s| ==> IsWhitespace(s[|w|])
  {
    if s == [] || IsWhitespace(s[0]) then [] else [s[0]] + Token(s[1..])
  }

  /** Python's `s.split()` with no argument: the maximal runs of
      non-whitespace characters, in order. */
  function Words(s: string): (r: seq<string>)
    ensures forall k :: 0 <= k < |r| ==> IsWord(r[k])
    decreases |s|
  {
    var t := LStrip(s);
    if t == [] then []
    else
      var w := Token(t);
      assert IsWord(w);
      [w] + Words(t[|w|..])
  }

  /** A command with no whitespace in it is invoked as a single argument. */
  lemma WordsOfToken(s: string)
    requires s != []
    requires forall k :: 0 <= k < |s| ==> !IsWhitespace(s[k])
    ensures Words(s) == [s]
  {
    assert LStrip(s) == s;
    TokenWhole(s);
    assert s[|s|..] == [];
  }

  /** A string of whitespace alone has no words. */
  lemma {:induction false} WordsOfBlank(s: string)
    requires forall k :: 0 <= k < |s| ==> IsWhitespace(s[k])
    ensures Words(s) == []
  {
    BlankStrips(s);
  }

  /** Stripping a string of whitespace alone leaves nothing. */
  lemma {:induction false} BlankStrips(s: string)
    requires forall k :: 0 <= k < |s| ==> IsWhitespace(s[k])
    ensures LStrip(s) == []
  {
    if s != [] {
      BlankStrips(s[1..]);
    }
  }

  /** A whitespace character separates words: the words on either side of
      it are the words of each side. */
  lemma WordsSplitAt(a: string, c: char, b: string)
    requires IsWhitespace(c)
    ensures Words(a + [c] + b) == Words(a) + Words(b)
  {
    var cb := [c] + b;
    assert a + [c] + b == a + cb;
    assert cb[1..] == b;
    WordsSameStrip(cb, b);
    WordsBefore(a, cb);
  }

  /** Words cannot run on into text that starts with whitespace. */
  lemma {:induction false} WordsBefore(a: string, y: string)
    requires y != [] && IsWhitespace(y[0])
    ensures Words(a + y) == Words(a) + Words(y)
    decreases |a|
  {
    var t := LStrip(a);
    if t == [] {
      LStripAppend(a, y);
      WordsSameStrip(a + y, y);
      assert Words(a) == [];
    } else {
      var w := Token(t);
      var rest := t[|w|..];
      FirstWordBefore(a, y);
      if |w| < |t| {
        WordsBefore(rest, y);
        AppendAssociates([w], Words(rest), Words(y));
      } else {
        assert rest == [] && rest + y == y;
        assert Words(rest) == [];
      }
    }
  }

  /** Concatenation is associative; stated apart so that the proof of
      `WordsBefore` need not rediscover it among the facts about words. */
  lemma AppendAssociates<T>(x: seq<T>, y: seq<T>, z: seq<T>)
    ensures x + (y + z) == (x + y) + z
  {
  }

  /** The first word of `a` is also the first word of `a + y`. */
  lemma FirstWordBefore(a: string, y: string)
    requires y != [] && IsWhitespace(y[0]) && LStrip(a) != []
    ensures var t := LStrip(a); var w := Token(t);
      && Words(a) == [w] + Words(t[|w|..])
      && Words(a + y) == [w] + Words(t[|w|..] + y)
  {
    var t := LStrip(a);
    var w := Token(t);
    LStripAppend(a, y);
    TokenAppend(t, y);
    assert (t + y)[|w|..] == t[|w|..] + y;
  }

  /** Words depend only on what is left after leading whitespace. */
  lemma WordsSameStrip(x: string, y: string)
    requires LStrip(x) == LStrip(y)
    ensures Words(x) == Words(y)
  {
  }

  /** Leading whitespace of a prefix is stripped from the whole. */
  lemma {:induction false} LStripAppend(x: string, y: string)
    ensures LStrip(x) != [] ==> LStrip(x + y) == LStrip(x) + y
    ensures LStrip(x) == [] ==> LStrip(x + y) == LStrip(y)
  {
    if x == [] {
      assert x + y == y;
    } else {
      assert (x + y)[0] == x[0];
      if IsWhitespace(x[0]) {
        assert (x + y)[1..] == x[1..] + y;
        LStripAppend(x[1..], y);
      }
    }
  }

  /** The first word of `t + y` is that of `t`, unless `t` is a single word
      that `y` does not extend. */
  lemma {:induction false} TokenAppend(t: string, y: string)
    ensures |Token(t)| < |t| ==> Token(t + y) == Token(t)
    ensures |Token(t)| == |t| && (y == [] || IsWhitespace(y[0])) ==> Token(t + y) == t
  {
    if t == [] {
      assert t + y == y;
    } else {
      assert (t + y)[0] == t[0];
      if !IsWhitespace(t[0]) {
        assert (t + y)[1..] == t[1..] + y;
        TokenAppend(t[1..], y);
      }
    }
  }

  lemma {:induction false} TokenWhole(s: string)
    requires forall k :: 0 <= k < |s| ==> !IsWhitespace(s[k])
    ensures Token(s) == s
  {
    if s != [] {
      TokenWhole(s[1..]);
    }
  }

  /** The text of a file written line by line, each line followed by a newline. */
  function Unlines(lines: seq<string>): string {
    if lines == [] then "" else lines[0] + "\n" + Unlines(lines[1..])
  }

  /** A file of newline-terminated lines is those lines joined on newlines,
      followed by an empty last piece. */
  lemma {:induction false} UnlinesIsJoin(lines: seq<string>)
    ensures Unlines(lines) == Join(lines + [""], '\n')
  {
    if lines != [] {
      UnlinesIsJoin(lines[1..]);
      assert (lines + [""])[1..] == lines[1..] + [""];
    }
  }

  /** Reading newline-terminated lines back with `split('\n')` gives the
      lines and one empty piece after the final newline. */
  lemma UnlinesReadsBack(lines: seq<string>)
    requires forall k :: 0 <= k < |lines| ==> '\n' !in lines[k]
    ensures Split(Unlines(lines), '\n') == lines + [""]
  {
    UnlinesIsJoin(lines);
    SplitJoin(lines + [""], '\n');
  }

  /** Newline-terminated lines of `a` then of `b`. */
  lemma {:induction false} UnlinesAppend(a: seq<string>, b: seq<string>)
    ensures Unlines(a + b) == Unlines(a) + Unlines(b)
  {
    if a == [] {
      assert a + b == b;
    } else {
      UnlinesAppend(a[1..], b);
      assert (a + b)[1..] == a[1..] + b;
      calc {
        Unlines(a + b);
        a[0] + "\n" + Unlines(a[1..] + b);
        a[0] + "\n" + (Unlines(a[1..]) + Unlines(b));
        (a[0] + "\n" + Unlines(a[1..])) + Unlines(b);
      }
    }
  }

  /** Each line preceded by a newline: how text appended to the end of a
      line adds further lines. */
  function NewlinePrefixed(lines: seq<string>): string {
    if lines == [] then "" else "\n" + lines[0] + NewlinePrefixed(lines[1..])
  }

  /** A line extended by newline-prefixed lines and then terminated is the
      newline-terminated list of all those lines. */
  lemma {:induction false} ExtendedLine(first: string, more: seq<string>)
    ensures first + NewlinePrefixed(more) + "\n" == Unlines([first] + more)
    decreases |more|
  {
    if more != [] {
      ExtendedLine(more[0], more[1..]);
      assert ([first] + more)[1..] == [more[0]] + more[1..];
      assert more == [more[0]] + more[1..];
    }
  }

  /** A joined text ends with its last part. */
  lemma {:induction false} JoinEndsWithLast(parts: seq<string>, sep: char)
    requires parts != []
    ensures var s := Join(parts, sep); var last := parts[|parts| - 1];
      |last| <= |s| && s[|s| - |last|..] == last
  {
    if |parts| > 1 {
      JoinEndsWithLast(parts[1..], sep);
    }
  }
}
