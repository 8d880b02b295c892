// Python's str operations that the build script, the CLI helpers and the
// documentation configuration rely on: split on a separator, whitespace
// split, strip, count, startswith/endswith, substring test, lower().

module Strings {

  /** Python's str.isspace() for one character. */
  predicate IsSpace(c: char)
  {
    var n := c as int;
    n == 32 || 9 <= n <= 13 || 28 <= n <= 31 || n == 0x85 || n == 0xA0 || n == 0x1680
    || 0x2000 <= n <= 0x200A || n == 0x2028 || n == 0x2029 || n == 0x202F || n == 0x205F
    || n == 0x3000
  }

  predicate NoSpace(w: string)
  {
    forall i :: 0 <= i < |w| ==> !IsSpace(w[i])
  }

  predicate AllSpace(w: string)
  {
    forall i :: 0 <= i < |w| ==> IsSpace(w[i])
  }

  predicate StartsWith(s: string, prefix: string)
  {
    |prefix| <= |s| && s[..|prefix|] == prefix
  }

  predicate EndsWith(s: string, suffix: string)
  {
    |suffix| <= |s| && s[|s| - |suffix|..] == suffix
  }

  /** `t` occurs in `s` at position `i`. */
  predicate OccursAt(s: string, t: string, i: int)
  {
    0 <= i && i + |t| <= |s| && s[i..i + |t|] == t
  }

  /** Python's `t in s` for two strings. */
  function Contains(s: string, t: string): (r: bool)
    ensures r <==> exists i :: OccursAt(s, t, i)
    decreases |s|
  {
    if StartsWith(s, t) then
      assert OccursAt(s, t, 0);
      true
    else if |s| <= |t| then
      assert forall i :: OccursAt(s, t, i) ==> i == 0;
      false
    else
      var r := Contains(s[1..], t);
      forall i | OccursAt(s[1..], t, i) ensures OccursAt(s, t, i + 1) {
        assert s[1..][i..i + |t|] == s[i + 1..i + 1 + |t|];
      }
      forall i | OccursAt(s, t, i) ensures i >= 1 && OccursAt(s[1..], t, i - 1) {
        assert s[1..][i - 1..i - 1 + |t|] == s[i..i + |t|];
      }
      r
  }

  /** Number of occurrences of `c` in `s` (Python's str.count for one character). */
  function Count(s: string, c: char): (n: nat)
    ensures n <= |s|
  {
    if s == [] then 0 else (if s[0] == c then 1 else 0) + Count(s[1..], c)
  }

  /** The inverse of Split: the parts glued back together with `sep`. */
  function Join(parts: seq<string>, sep: char): string
  {
    if parts == [] then ""
    else if |parts| == 1 then parts[0]
    else parts[0] + [sep] + Join(parts[1..], sep)
  }

  /** Python's s.split(sep) for a one-character separator. */
  function Split(s: string, sep: char): (parts: seq<string>)
    ensures |parts| >= 1
    decreases |s|
  {
    if s == [] then [""]
    else
      var rest := Split(s[1..], sep);
      if s[0] == sep then [""] + rest
      else [[s[0]] + rest[0]] + rest[1..]
  }

  /** The parts hold no separator, and joined back with it they give the string. */
  lemma SplitParts(s: string, sep: char)
    ensures var parts := Split(s, sep);
            (forall i :: 0 <= i < |parts| ==> sep !in parts[i]) && Join(parts, sep) == s
  {
    SplitPartsFree(s, sep);
    SplitJoinsBack(s, sep);
  }

  lemma {:induction false} SplitPartsFree(s: string, sep: char)
    ensures forall i :: 0 <= i < |Split(s, sep)| ==> sep !in Split(s, sep)[i]
    decreases |s|
  {
    if s != [] {
      var rest := Split(s[1..], sep);
      SplitPartsFree(s[1..], sep);
      var parts := Split(s, sep);
      forall i | 0 <= i < |parts| ensures sep !in parts[i] {
        if s[0] == sep {
          if i > 0 { assert parts[i] == rest[i - 1]; } else { assert parts[0] == ""; }
        } else if i > 0 {
          assert parts[i] == rest[i];
        } else {
          assert sep !in rest[0];
          assert parts[0] == [s[0]] + rest[0];
        }
      }
    }
  }

  lemma {:induction false} SplitJoinsBack(s: string, sep: char)
    ensures Join(Split(s, sep), sep) == s
    decreases |s|
  {
    if s != [] {
      var rest := Split(s[1..], sep);
      SplitJoinsBack(s[1..], sep);
      var parts := Split(s, sep);
      if s[0] == sep {
        assert parts[1..] == rest;
      } else {
        assert parts[1..] == rest[1..];
        if |rest| > 1 {
          assert Join(rest, sep) == rest[0] + [sep] + Join(rest[1..], sep);
        }
        assert s == [s[0]] + s[1..];
      }
    }
  }

  lemma {:induction false} JoinAppend(xs: seq<string>, ys: seq<string>, sep: char)
    requires xs != [] && ys != []
    ensures Join(xs + ys, sep) == Join(xs, sep) + [sep] + Join(ys, sep)
    decreases |xs|
  {
    if |xs| == 1 {
      assert (xs + ys)[1..] == ys;
    } else {
      assert (xs + ys)[1..] == xs[1..] + ys;
      JoinAppend(xs[1..], ys, sep);
    }
  }

  /** Split undoes Join when no part contains the separator. */
  lemma {:induction false} SplitJoin(parts: seq<string>, sep: char)
    requires parts != []
    requires forall i :: 0 <= i < |parts| ==> sep !in parts[i]
    ensures Split(Join(parts, sep), sep) == parts
    decreases |parts|
  {
    if |parts| == 1 {
      SplitNoSep(parts[0], sep);
    } else {
      SplitJoin(parts[1..], sep);
      SplitPrefixed(parts[0], Join(parts[1..], sep), sep);
    }
  }

  lemma {:induction false} SplitNoSep(s: string, sep: char)
    requires sep !in s
    ensures Split(s, sep) == [s]
    decreases |s|
  {
    if s != [] {
      SplitNoSep(s[1..], sep);
      assert s == [s[0]] + s[1..];
    }
  }

  lemma {:induction false} SplitPrefixed(a: string, b: string, sep: char)
    requires sep !in a
    ensures Split(a + [sep] + b, sep) == [a] + Split(b, sep)
    decreases |a|
  {
    if a == [] {
      assert a + [sep] + b == [sep] + b;
      assert ([sep] + b)[1..] == b;
    } else {
      var s := a + [sep] + b;
      assert s[0] == a[0] && s[1..] == a[1..] + [sep] + b;
      SplitPrefixed(a[1..], b, sep);
      assert [a[0]] + a[1..] == a;
    }
  }

  /** Splitting at a separator splits the two sides independently. */
  lemma SplitAppend(a: string, b: string, sep: char)
    ensures Split(a + [sep] + b, sep) == Split(a, sep) + Split(b, sep)
  {
    var xs, ys := Split(a, sep), Split(b, sep);
    SplitParts(a, sep);
    SplitParts(b, sep);
    JoinAppend(xs, ys, sep);
    NoSepConcat(xs, ys, sep);
    SplitJoin(xs + ys, sep);
  }

  lemma NoSepConcat(xs: seq<string>, ys: seq<string>, sep: char)
    requires forall i :: 0 <= i < |xs| ==> sep !in xs[i]
    requires forall i :: 0 <= i < |ys| ==> sep !in ys[i]
    ensures forall i :: 0 <= i < |xs + ys| ==> sep !in (xs + ys)[i]
  {
    forall i | 0 <= i < |xs + ys| ensures sep !in (xs + ys)[i] {
      if i < |xs| { assert (xs + ys)[i] == xs[i]; } else { assert (xs + ys)[i] == ys[i - |xs|]; }
    }
  }

  /** A string splits into one more part than it has separators. */
  lemma {:induction false} SplitCount(s: string, sep: char)
    ensures |Split(s, sep)| == Count(s, sep) + 1
    decreases |s|
  {
    if s != [] {
      SplitCount(s[1..], sep);
    }
  }

  /** Python's s.lstrip(): drops leading whitespace. */
  function TrimStart(s: string): (r: string)
    ensures |r| <= |s|
    ensures r == [] || !IsSpace(r[0])
    decreases |s|
  {
    if s != [] && IsSpace(s[0]) then TrimStart(s[1..]) else s
  }

  /** lstrip keeps a suffix of the string and drops only whitespace. */
  lemma {:induction false} TrimStartDrops(s: string)
    ensures var r := TrimStart(s);
            r == s[|s| - |r|..] && AllSpace(s[..|s| - |r|])
    decreases |s|
  {
    if s != [] && IsSpace(s[0]) {
      var r := TrimStart(s[1..]);
      TrimStartDrops(s[1..]);
      assert s[..|s| - |r|] == [s[0]] + s[1..][..|s| - 1 - |r|];
    }
  }

  /** Python's s.rstrip(): drops trailing whitespace. */
  function TrimEnd(s: string): (r: string)
    ensures |r| <= |s|
    ensures r == [] || !IsSpace(r[|r| - 1])
    decreases |s|
  {
    if s != [] && IsSpace(s[|s| - 1]) then TrimEnd(s[..|s| - 1]) else s
  }

  /** rstrip keeps a prefix of the string and drops only whitespace. */
  lemma {:induction false} TrimEndDrops(s: string)
    ensures var r := TrimEnd(s);
            r == s[..|r|] && AllSpace(s[|r|..])
    decreases |s|
  {
    if s != [] && IsSpace(s[|s| - 1]) {
      var r := TrimEnd(s[..|s| - 1]);
      TrimEndDrops(s[..|s| - 1]);
      assert s[|r|..] == s[..|s| - 1][|r|..] + [s[|s| - 1]];
    }
  }

  /** Python's s.strip(): the slice of `s` between its leading and trailing whitespace. */
  function Strip(s: string): (r: string)
    ensures r == [] || (!IsSpace(r[0]) && !IsSpace(r[|r| - 1]))
  {
    var t := TrimStart(s);
    var r := TrimEnd(t);
    TrimEndDrops(t);
    assert r != [] ==> r[0] == t[0];
    r
  }

  /** strip keeps a slice of the string and drops only whitespace on either side of it. */
  lemma StripDrops(s: string)
    ensures var r := Strip(s);
            exists i :: 0 <= i <= |s| - |r| && r == s[i..i + |r|] && AllSpace(s[..i]) && AllSpace(s[i + |r|..])
  {
    var t := TrimStart(s);
    var r := TrimEnd(t);
    TrimStartDrops(s);
    TrimEndDrops(t);
    var i := |s| - |t|;
    assert r == s[i..i + |r|];
    assert s[i + |r|..] == t[|r|..];
  }

  /** Length of the run of non-space characters that starts `s`. */
  function WordLength(s: string): (n: nat)
    ensures n <= |s|
  {
    if s == [] || IsSpace(s[0]) then 0 else WordLength(s[1..]) + 1
  }

  /** The run is non-space and ends at a blank or at the end of the string. */
  lemma {:induction false} WordLengthRun(s: string)
    ensures var n := WordLength(s);
            NoSpace(s[..n]) && (n == |s| || IsSpace(s[n]))
  {
    if s != [] && !IsSpace(s[0]) {
      var n := WordLength(s[1..]);
      WordLengthRun(s[1..]);
      assert s[..n + 1] == [s[0]] + s[1..][..n];
    }
  }

  /** A non-empty run of non-space characters. */
  predicate IsWord(w: string)
  {
    w != [] && NoSpace(w)
  }

  /** Python's s.split() with no argument: the maximal runs of non-space characters. */
  function Words(s: string): (ws: seq<string>)
    decreases |s|
  {
    var t := TrimStart(s);
    if t == [] then []
    else
      var n := WordLength(t);
      [t[..n]] + Words(t[n..])
  }

  /** Every part split() yields is a word, and it yields none exactly when the string is all blanks. */
  lemma {:induction false} WordsAreWords(s: string)
    ensures var ws := Words(s);
            (forall i :: 0 <= i < |ws| ==> IsWord(ws[i])) && (ws == [] <==> AllSpace(s))
    decreases |s|
  {
    var t := TrimStart(s);
    TrimStartDrops(s);
    if t == [] {
      assert s[..|s|] == s;
    } else {
      var n := WordLength(t);
      WordLengthRun(t);
      var w := t[..n];
      assert IsWord(w);
      var rest := Words(t[n..]);
      WordsAreWords(t[n..]);
      assert !AllSpace(s) by { assert s[|s| - |t|] == t[0]; }
      var ws := [w] + rest;
      forall i | 0 <= i < |ws| ensures IsWord(ws[i]) {
        if i > 0 { assert ws[i] == rest[i - 1]; }
      }
    }
  }

  /** The first whitespace-separated word of `s` is the leading non-space run after leading blanks. */
  lemma FirstWord(s: string)
    requires !AllSpace(s)
    ensures Words(s) != [] && Words(s)[0] == TrimStart(s)[..WordLength(TrimStart(s))]
  {
    WordsAreWords(s);
  }

  lemma {:induction false} WordLengthPrefix(w: string, rest: string)
    requires NoSpace(w) && (rest == [] || IsSpace(rest[0]))
    ensures WordLength(w + rest) == |w|
    decreases |w|
  {
    if w == [] {
      assert w + rest == rest;
    } else {
      assert (w + rest)[1..] == w[1..] + rest;
      WordLengthPrefix(w[1..], rest);
    }
  }

  /** A word followed by a blank (or nothing) is what split() yields first. */
  lemma LeadingWord(w: string, rest: string)
    requires IsWord(w) && (rest == [] || IsSpace(rest[0]))
    ensures Words(w + rest) != [] && Words(w + rest)[0] == w
  {
    var s := w + rest;
    assert s[0] == w[0];
    assert TrimStart(s) == s;
    WordLengthPrefix(w, rest);
    assert s[..|w|] == w;
    WordsAreWords(s);
  }

  /** Stripping the newline a shell command prints after text that has no blank ends gives back the text. */
  lemma StripLine(x: string)
    requires x != [] && !IsSpace(x[0]) && !IsSpace(x[|x| - 1])
    ensures Strip(x + "\n") == x
  {
    var s := x + "\n";
    assert s[0] == x[0];
    assert TrimStart(s) == s;
    assert s[..|s| - 1] == x;
    assert IsSpace(s[|s| - 1]);
    assert TrimEnd(s) == TrimEnd(x);
    assert TrimEnd(x) == x;
  }

  function LowerChar(c: char): char
  {
    if 'A' <= c <= 'Z' then (c as int + 32) as char else c
  }

  /** Python's s.lower(), restricted to the ASCII letters. */
  function Lower(s: string): (r: string)
    ensures |r| == |s|
    ensures forall i :: 0 <= i < |s| ==> r[i] == LowerChar(s[i])
  {
    seq(|s|, i requires 0 <= i < |s| => LowerChar(s[i]))
  }

  function DigitChar(d: nat): char
    requires d < 10
  {
    ('0' as int + d) as char
  }

  function NatToString(n: nat): (r: string)
    ensures r != []
  {
    if n < 10 then [DigitChar(n)] else NatToString(n / 10) + [DigitChar(n % 10)]
  }

  /** Python's str(n) for an int. */
  function IntToString(n: int): (r: string)
    ensures r != []
  {
    if n < 0 then "-" + NatToString(-n) else NatToString(n)
  }
}
