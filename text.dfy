/**
 * The handful of Python `str` operations the agent relies on, restricted to
 * ASCII: `isspace`, `lower`, `strip`, `startswith`, `in` (substring),
 * `split()` with `maxsplit` and `sep.join`; and `split(sep)`, which the agent
 * does not call, to read joined text back.
 */
module Text {

  /** Python's `str.isspace` on ASCII: \t \n \v \f \r, the separators \x1c-\x1f, and the space. */
  predicate IsSpace(c: char) {
    c == ' ' || ('\t' <= c <= '\r') || ('\U{1C}' <= c <= '\U{1F}')
  }

  predicate AllSpace(s: string) {
    forall i :: 0 <= i < |s| ==> IsSpace(s[i])
  }

  predicate NoSpace(s: string) {
    forall i :: 0 <= i < |s| ==> !IsSpace(s[i])
  }

  /** Neither end is whitespace: what `strip` leaves behind. */
  predicate Trimmed(s: string) {
    s == [] || (!IsSpace(s[0]) && !IsSpace(s[|s| - 1]))
  }

  predicate StartsWith(s: string, prefix: string) {
    prefix <= s
  }

  predicate EndsWith(s: string, suffix: string) {
    |suffix| <= |s| && s[|s| - |suffix|..] == suffix
  }

  lemma EndsWithTrans(a: string, b: string, c: string)
    requires EndsWith(a, b) && EndsWith(b, c)
    ensures EndsWith(a, c)
  {
    assert a[|a| - |c|..] == a[|a| - |b|..][|b| - |c|..];
  }

  /** Python's `needle in s`. */
  predicate Contains(s: string, needle: string)
    decreases |s|
  {
    StartsWith(s, needle) || (s != [] && Contains(s[1..], needle))
  }

  /** An occurrence at any position is found by `in`. */
  lemma {:induction false} ContainsAt(s: string, k: string, i: nat)
    requires i + |k| <= |s| && s[i..i + |k|] == k
    ensures Contains(s, k)
    decreases i
  {
    if i == 0 {
      assert s[..|k|] == k;
    } else {
      assert s[1..][i - 1..i - 1 + |k|] == s[i..i + |k|];
      ContainsAt(s[1..], k, i - 1);
    }
  }

  /** Where `in` found the needle. */
  lemma {:induction false} ContainsWhere(s: string, k: string) returns (i: nat)
    requires Contains(s, k)
    ensures i + |k| <= |s| && s[i..i + |k|] == k
    decreases |s|
  {
    if StartsWith(s, k) {
      i := 0;
      assert s[..|k|] == k;
    } else {
      var j := ContainsWhere(s[1..], k);
      i := j + 1;
      assert s[i..i + |k|] == s[1..][j..j + |k|];
    }
  }

  // ---------------------------------------------------------------- lower

  function LowerChar(c: char): char {
    if 'A' <= c <= 'Z' then (c as int + 32) as char else c
  }

  /** `str.lower` on ASCII letters; every other character is kept. */
  function Lower(s: string): (r: string)
    ensures |r| == |s|
    decreases |s|
  {
    if s == [] then [] else [LowerChar(s[0])] + Lower(s[1..])
  }

  lemma {:induction false} LowerAt(s: string, i: nat)
    requires i < |s|
    ensures Lower(s)[i] == LowerChar(s[i])
    decreases |s|
  {
    if i > 0 {
      LowerAt(s[1..], i - 1);
    }
  }

  lemma {:induction false} LowerConcat(a: string, b: string)
    ensures Lower(a + b) == Lower(a) + Lower(b)
    decreases |a|
  {
    if a == [] {
      assert a + b == b;
    } else {
      assert (a + b)[1..] == a[1..] + b;
      LowerConcat(a[1..], b);
    }
  }

  lemma {:induction false} LowerIdempotent(s: string)
    ensures Lower(Lower(s)) == Lower(s)
    decreases |s|
  {
    if s != [] {
      LowerIdempotent(s[1..]);
      assert Lower(s)[1..] == Lower(s[1..]);
    }
  }

  /** A string with no upper-case ASCII letter is its own lower-case form. */
  lemma {:induction false} LowerOfLower(s: string)
    requires forall i :: 0 <= i < |s| ==> !('A' <= s[i] <= 'Z')
    ensures Lower(s) == s
    decreases |s|
  {
    if s != [] {
      LowerOfLower(s[1..]);
    }
  }

  // ---------------------------------------------------------------- strip

  /** `str.lstrip()`: drops the leading whitespace. */
  function LStrip(s: string): (r: string)
    ensures |r| <= |s|
    ensures r == [] || !IsSpace(r[0])
    decreases |s|
  {
    if s != [] && IsSpace(s[0]) then LStrip(s[1..]) else s
  }

  /** What `lstrip` drops is whitespace, and what it keeps is the rest of the input. */
  lemma {:induction false} LStripParts(s: string)
    ensures s == s[..|s| - |LStrip(s)|] + LStrip(s)
    ensures AllSpace(s[..|s| - |LStrip(s)|])
    decreases |s|
  {
    if s != [] && IsSpace(s[0]) {
      LStripParts(s[1..]);
      var k := |s[1..]| - |LStrip(s[1..])|;
      assert s[..k + 1] == [s[0]] + s[1..][..k];
    }
  }

  lemma {:induction false} LStripSuffix(s: string)
    ensures EndsWith(s, LStrip(s))
    decreases |s|
  {
    if s != [] && IsSpace(s[0]) {
      LStripSuffix(s[1..]);
      EndsWithTrans(s, s[1..], LStrip(s[1..]));
    }
  }

  /** `lstrip` empties exactly the all-whitespace strings. */
  lemma {:induction false} LStripBlank(s: string)
    ensures LStrip(s) == [] <==> AllSpace(s)
    decreases |s|
  {
    if s != [] && IsSpace(s[0]) {
      LStripBlank(s[1..]);
      assert AllSpace(s) <==> AllSpace(s[1..]) by {
        assert forall i :: 0 < i < |s| ==> s[i] == s[1..][i - 1];
      }
    }
  }

  /** `str.rstrip()`: drops the trailing whitespace. */
  function RStrip(s: string): (r: string)
    ensures |r| <= |s|
    ensures r == [] || !IsSpace(r[|r| - 1])
    decreases |s|
  {
    if s != [] && IsSpace(s[|s| - 1]) then RStrip(s[..|s| - 1]) else s
  }

  /** What `rstrip` drops is whitespace, and what it keeps is the start of the input. */
  lemma {:induction false} RStripParts(s: string)
    ensures s == RStrip(s) + s[|RStrip(s)|..]
    ensures AllSpace(s[|RStrip(s)|..])
    decreases |s|
  {
    if s != [] && IsSpace(s[|s| - 1]) {
      var s' := s[..|s| - 1];
      RStripParts(s');
      assert s[|RStrip(s')|..] == s'[|RStrip(s')|..] + [s[|s| - 1]];
    }
  }

  /** `str.strip()`: the input minus whitespace at both ends. */
  function Strip(s: string): (r: string)
    ensures Trimmed(r)
    ensures |r| <= |s|
    ensures r == [] <==> AllSpace(s)
  {
    LStripBlank(s);
    RStripKeepsFirst(LStrip(s));
    RStrip(LStrip(s))
  }

  lemma {:induction false} RStripKeepsFirst(s: string)
    ensures s != [] && !IsSpace(s[0]) ==> RStrip(s) != [] && RStrip(s)[0] == s[0]
    decreases |s|
  {
    if s != [] && !IsSpace(s[0]) && IsSpace(s[|s| - 1]) {
      RStripKeepsFirst(s[..|s| - 1]);
    }
  }

  lemma LStripSkip(p: string, t: string)
    requires AllSpace(p)
    ensures LStrip(p + t) == LStrip(t)
    decreases |p|
  {
    if p != [] {
      assert (p + t)[0] == p[0];
      assert (p + t)[1..] == p[1..] + t;
      LStripSkip(p[1..], t);
    } else {
      assert p + t == t;
    }
  }

  lemma RStripSkip(t: string, q: string)
    requires AllSpace(q)
    ensures RStrip(t + q) == RStrip(t)
    decreases |q|
  {
    if q != [] {
      assert (t + q)[|t + q| - 1] == q[|q| - 1];
      assert (t + q)[..|t + q| - 1] == t + q[..|q| - 1];
      RStripSkip(t, q[..|q| - 1]);
    } else {
      assert t + q == t;
    }
  }

  /**
   * `strip` recovers the core of any string padded with whitespace on both
   * sides, provided the core itself has no whitespace at its ends.
   */
  lemma {:induction false} StripPadded(p: string, m: string, q: string)
    requires AllSpace(p) && AllSpace(q) && Trimmed(m)
    ensures Strip(p + m + q) == m
  {
    LStripSkip(p, m + q);
    assert p + m + q == p + (m + q);
    if m == [] {
      assert m + q == q + [];
      LStripSkip(q, []);
    } else {
      assert LStrip(m + q) == m + q;
      RStripSkip(m, q);
      assert RStrip(m) == m;
    }
  }

  /** Every string is its stripped form padded with whitespace. */
  lemma StripParts(s: string) returns (p: string, q: string)
    ensures AllSpace(p) && AllSpace(q) && s == p + Strip(s) + q
  {
    var t := LStrip(s);
    LStripParts(s);
    RStripParts(t);
    p := s[..|s| - |t|];
    q := t[|RStrip(t)|..];
  }

  lemma StripIdempotent(s: string)
    ensures Strip(Strip(s)) == Strip(s)
  {
    StripPadded([], Strip(s), []);
    assert [] + Strip(s) + [] == Strip(s);
  }

  /** Lower-casing moves no whitespace. */
  lemma LowerSpaces(s: string)
    ensures forall i :: 0 <= i < |s| ==> IsSpace(Lower(s)[i]) == IsSpace(s[i])
  {
    forall i | 0 <= i < |s| ensures IsSpace(Lower(s)[i]) == IsSpace(s[i]) {
      LowerAt(s, i);
    }
  }

  lemma LowerKeepsSpace(s: string)
    ensures AllSpace(Lower(s)) == AllSpace(s)
    ensures Trimmed(Lower(s)) == Trimmed(s)
  {
    LowerSpaces(s);
  }

  /** Lower-casing and stripping commute. */
  lemma {:induction false} LowerStrip(s: string)
    ensures Strip(Lower(s)) == Lower(Strip(s))
  {
    var p, q := StripParts(s);
    var m := Strip(s);
    LowerConcat(p, m);
    LowerConcat(p + m, q);
    LowerKeepsSpace(p);
    LowerKeepsSpace(m);
    LowerKeepsSpace(q);
    StripPadded(Lower(p), Lower(m), Lower(q));
  }

  /**
   * Stripping keeps a contained word that has no whitespace at its ends (the
   * keywords of the classifier are such words).
   */
  lemma StripKeepsInfix(s: string, k: string)
    requires k != [] && Trimmed(k) && Contains(s, k)
    ensures Contains(Strip(s), k)
  {
    var p, q := StripParts(s);
    ContainsTrimmed(p, Strip(s), q, k);
  }

  lemma ContainsTrimmed(p: string, m: string, q: string, k: string)
    requires AllSpace(p) && AllSpace(q) && k != [] && Trimmed(k)
    requires Contains(p + m + q, k)
    ensures Contains(m, k)
  {
    var s := p + m + q;
    var i := ContainsWhere(s, k);
    assert s[i] == k[0];
    assert s[i + |k| - 1] == k[|k| - 1];
    assert |p| <= i;
    assert i + |k| <= |p| + |m|;
    assert m[i - |p|..i - |p| + |k|] == s[i..i + |k|];
    ContainsAt(m, k, i - |p|);
  }

  // ---------------------------------------------------------------- split

  /** The longest prefix without whitespace. */
  function TakeWord(s: string): (w: string)
    ensures |w| <= |s|
    ensures s != [] && !IsSpace(s[0]) ==> w != []
    ensures NoSpace(w)
    decreases |s|
  {
    if s == [] || IsSpace(s[0]) then [] else [s[0]] + TakeWord(s[1..])
  }

  lemma {:induction false} TakeWordOf(w: string, t: string)
    requires NoSpace(w)
    requires t == [] || IsSpace(t[0])
    ensures TakeWord(w + t) == w
    decreases |w|
  {
    if w != [] {
      assert (w + t)[1..] == w[1..] + t;
      TakeWordOf(w[1..], t);
    } else {
      assert w + t == t;
    }
  }

  /**
   * Python's `s.split(maxsplit=n)` without a separator: runs of whitespace
   * separate the words, leading whitespace is ignored, and after `n` splits the
   * rest of the string, from its first non-whitespace character, is the last
   * element.
   */
  function Split(s: string, maxsplit: nat): (parts: seq<string>)
    ensures |parts| <= maxsplit + 1
    ensures parts == [] <==> AllSpace(s)
    ensures forall i :: 0 <= i < |parts| ==> parts[i] != [] && !IsSpace(parts[i][0])
    ensures forall i :: 0 <= i < |parts| && i < maxsplit ==> NoSpace(parts[i])
    decreases |s|
  {
    var t := LStrip(s);
    LStripBlank(s);
    if t == [] then []
    else if maxsplit == 0 then [t]
    else
      var w := TakeWord(t);
      [w] + Split(t[|w|..], maxsplit - 1)
  }

  /** Once all `maxsplit` splits are made, the last element runs to the end of the input. */
  lemma {:induction false} SplitLastIsSuffix(s: string, maxsplit: nat)
    requires |Split(s, maxsplit)| == maxsplit + 1
    ensures EndsWith(s, Split(s, maxsplit)[maxsplit])
    decreases |s|
  {
    var t := LStrip(s);
    LStripSuffix(s);
    if maxsplit == 0 {
      assert Split(s, maxsplit)[maxsplit] == t;
    } else {
      var w := TakeWord(t);
      var rest := t[|w|..];
      SplitLastIsSuffix(rest, maxsplit - 1);
      var last := Split(rest, maxsplit - 1)[maxsplit - 1];
      assert Split(s, maxsplit)[maxsplit] == last;
      EndsWithTrans(t, rest, last);
      EndsWithTrans(s, t, last);
    }
  }

  lemma SplitSkip(p: string, t: string, n: nat)
    requires AllSpace(p)
    ensures Split(p + t, n) == Split(t, n)
  {
    LStripSkip(p, t);
  }

  /** A word at the front of the line becomes the first element. */
  lemma SplitWord(w: string, t: string, n: nat)
    requires w != [] && NoSpace(w)
    requires t == [] || IsSpace(t[0])
    ensures Split(w + t, n + 1) == [w] + Split(t, n)
  {
    assert LStrip(w + t) == w + t;
    TakeWordOf(w, t);
    assert (w + t)[|w|..] == t;
  }

  /** With no splits left, the rest is taken whole. */
  lemma SplitRest(t: string)
    requires t != [] && !IsSpace(t[0])
    ensures Split(t, 0) == [t]
  {
  }

  /** Whitespace and then a word: the word is the first element. */
  lemma SplitGapWord(gap: string, w: string, rest: string, n: nat)
    requires AllSpace(gap) && w != [] && NoSpace(w) && (rest == [] || IsSpace(rest[0]))
    ensures Split(gap + (w + rest), n + 1) == [w] + Split(rest, n)
  {
    SplitSkip(gap, w + rest, n + 1);
    SplitWord(w, rest, n);
  }

  /** Two words separated by whitespace are the first two elements. */
  lemma SplitTokens(w1: string, gap: string, w2: string, rest: string, n: nat)
    requires w1 != [] && NoSpace(w1) && gap != [] && AllSpace(gap)
    requires w2 != [] && NoSpace(w2) && (rest == [] || IsSpace(rest[0]))
    ensures Split(w1 + (gap + (w2 + rest)), n + 2) == [w1, w2] + Split(rest, n)
  {
    var tail := Split(rest, n);
    SplitGapWord(gap, w2, rest, n);
    SplitWord(w1, gap + (w2 + rest), n + 1);
    assert [w1] + ([w2] + tail) == [w1, w2] + tail;
  }

  /** A lone word is the only element. */
  lemma SplitLoneWord(w: string, n: nat)
    requires w != [] && NoSpace(w)
    ensures Split(w, n + 1) == [w]
  {
    SplitWord(w, [], n);
    assert w + [] == w;
  }

  lemma Assoc(a: string, b: string, c: string)
    ensures a + b + c == a + (b + c)
  {
  }

  // ---------------------------------------------------------------- join

  /** Python's `sep.join(xs)`. */
  function Join(sep: string, xs: seq<string>): (r: string)
    ensures xs != [] ==> StartsWith(r, xs[0]) && EndsWith(r, xs[|xs| - 1])
    decreases |xs|
  {
    if xs == [] then [] else if |xs| == 1 then xs[0] else xs[0] + sep + Join(sep, xs[1..])
  }

  /** Joining one more piece appends the separator and the piece. */
  lemma {:induction false} JoinAppend(sep: string, xs: seq<string>, x: string)
    requires xs != []
    ensures Join(sep, xs + [x]) == Join(sep, xs) + sep + x
    decreases |xs|
  {
    if |xs| > 1 {
      assert (xs + [x])[1..] == xs[1..] + [x];
      JoinAppend(sep, xs[1..], x);
    }
  }

  /** A joined list ends with its last piece. */
  lemma JoinEndsWith(sep: string, xs: seq<string>, x: string)
    ensures EndsWith(Join(sep, xs + [x]), x)
  {
    if xs == [] {
      assert [] + [x] == [x];
    } else {
      JoinAppend(sep, xs, x);
    }
  }

  /** Python's `s.split(sep)` for a one-character separator: never empty. */
  function SplitOn(s: string, sep: char): (pieces: seq<string>)
    ensures |pieces| >= 1
    decreases |s|
  {
    if s == [] then [[]]
    else if s[0] == sep then [[]] + SplitOn(s[1..], sep)
    else
      var rest := SplitOn(s[1..], sep);
      [[s[0]] + rest[0]] + rest[1..]
  }

  lemma {:induction false} SplitOnPiece(x: string, sep: char, rest: string)
    requires sep !in x
    ensures SplitOn(x + [sep] + rest, sep) == [x] + SplitOn(rest, sep)
    ensures SplitOn(x, sep) == [x]
    decreases |x|
  {
    if x == [] {
      assert x + [sep] + rest == [sep] + rest;
      assert ([sep] + rest)[1..] == rest;
    } else {
      assert (x + [sep] + rest)[1..] == x[1..] + [sep] + rest;
      assert x[1..] + [] == x[1..];
      SplitOnPiece(x[1..], sep, rest);
      assert x == [x[0]] + x[1..];
    }
  }

  /** Splitting on a separator undoes joining with it, when no piece contains it. */
  lemma {:induction false} SplitOnJoin(xs: seq<string>, sep: char)
    requires xs != []
    requires forall i :: 0 <= i < |xs| ==> sep !in xs[i]
    ensures SplitOn(Join([sep], xs), sep) == xs
    decreases |xs|
  {
    if |xs| == 1 {
      SplitOnPiece(xs[0], sep, []);
    } else {
      SplitOnJoin(xs[1..], sep);
      SplitOnPiece(xs[0], sep, Join([sep], xs[1..]));
      assert xs == [xs[0]] + xs[1..];
    }
  }
}
