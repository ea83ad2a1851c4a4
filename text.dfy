/**
 * String helpers shared by the build scripts and the game code: the
 * JavaScript notions of white space, `trim`, ASCII `toLowerCase`,
 * `split` on one character and `indexOf`, stated over `seq<char>`.
 */
module Text {
  import opened Wrappers

  predicate StartsWith(s: string, p: string) {
    |p| <= |s| && s[..|p|] == p
  }

  /** `p` occurs in `s` starting at index `i`. */
  predicate OccursAt(s: string, p: string, i: int) {
    0 <= i && i + |p| <= |s| && s[i..i + |p|] == p
  }

  /** JavaScript `s.includes(p)`. */
  predicate Contains(s: string, p: string) {
    exists i | 0 <= i <= |s| :: OccursAt(s, p, i)
  }

  /**
   * The characters matched by `\s` in a JavaScript regular expression and
   * removed by `String.prototype.trim`: WhiteSpace and LineTerminator of
   * ECMA-262.
   */
  predicate IsWhitespace(c: char) {
    c == '\t' || c == '\n' || c == '\U{000B}' || c == '\U{000C}' || c == '\r' || c == ' '
    || c == '\U{00A0}' || c == '\U{1680}' || ('\U{2000}' <= c <= '\U{200A}')
    || c == '\U{2028}' || c == '\U{2029}' || c == '\U{202F}' || c == '\U{205F}'
    || c == '\U{3000}' || c == '\U{FEFF}'
  }

  /** The characters that `.` in a JavaScript regular expression does not match. */
  predicate IsLineTerminator(c: char) {
    c == '\n' || c == '\r' || c == '\U{2028}' || c == '\U{2029}'
  }

  lemma LineTerminatorIsWhitespace(c: char)
    ensures IsLineTerminator(c) ==> IsWhitespace(c)
  {
  }

  predicate AllWhitespace(s: string) {
    forall i :: 0 <= i < |s| ==> IsWhitespace(s[i])
  }

  /** White space holds no character that is not white space. */
  lemma NotInWhitespace(s: string, c: char)
    requires AllWhitespace(s) && !IsWhitespace(c)
    ensures c !in s
  {
  }

  function TrimStart(s: string): (r: string)
    ensures |r| <= |s| && r == s[|s| - |r|..]
    ensures r == [] || !IsWhitespace(r[0])
    ensures AllWhitespace(s[..|s| - |r|])
  {
    if s != [] && IsWhitespace(s[0]) then
      var r := TrimStart(s[1..]);
      TrimStartStep(s, r);
      r
    else s
  }

  /** What the recursive call of `TrimStart` gives on the rest holds of the whole. */
  lemma TrimStartStep(s: string, r: string)
    requires s != [] && IsWhitespace(s[0])
    requires |r| <= |s| - 1 && r == s[1..][|s| - 1 - |r|..] && AllWhitespace(s[1..][..|s| - 1 - |r|])
    ensures r == s[|s| - |r|..] && AllWhitespace(s[..|s| - |r|])
  {
    assert forall i :: 0 < i < |s| - |r| ==> s[i] == s[1..][..|s| - 1 - |r|][i - 1];
  }

  function TrimEnd(s: string): (r: string)
    ensures |r| <= |s| && r == s[..|r|]
    ensures r == [] || !IsWhitespace(r[|r| - 1])
    ensures AllWhitespace(s[|r|..])
  {
    if s != [] && IsWhitespace(s[|s| - 1]) then
      var r := TrimEnd(s[..|s| - 1]);
      TrimEndStep(s, r);
      r
    else s
  }

  /** What the recursive call of `TrimEnd` gives on the rest holds of the whole. */
  lemma TrimEndStep(s: string, r: string)
    requires s != [] && IsWhitespace(s[|s| - 1])
    requires |r| <= |s| - 1 && r == s[..|s| - 1][..|r|] && AllWhitespace(s[..|s| - 1][|r|..])
    ensures r == s[..|r|] && AllWhitespace(s[|r|..])
  {
    assert forall i :: |r| <= i < |s| - 1 ==> s[i] == s[..|s| - 1][|r|..][i - |r|];
  }

  /** JavaScript `s.trim()`. */
  function Trim(s: string): string {
    TrimEnd(TrimStart(s))
  }

  /** `Trim` removes exactly the white space at both ends and nothing else. */
  lemma TrimSpec(s: string)
    ensures var t := Trim(s);
      exists i, j :: 0 <= i <= j <= |s| && t == s[i..j]
        && AllWhitespace(s[..i]) && AllWhitespace(s[j..])
        && (t == [] || (!IsWhitespace(t[0]) && !IsWhitespace(t[|t| - 1])))
  {
    var i, j := TrimBounds(s);
  }

  /** Where the trimmed text sits inside the original. */
  lemma TrimBounds(s: string) returns (i: nat, j: nat)
    ensures i <= j <= |s| && Trim(s) == s[i..j]
    ensures AllWhitespace(s[..i]) && AllWhitespace(s[j..])
    ensures var t := Trim(s); t == [] || (!IsWhitespace(t[0]) && !IsWhitespace(t[|t| - 1]))
  {
    var u := TrimStart(s);
    i, j := TrimmedSlice(s, u, TrimEnd(u));
  }

  /** Where `t`, the start of the suffix `u` of `s`, sits in `s`. */
  lemma TrimmedSlice(s: string, u: string, t: string) returns (i: nat, j: nat)
    requires |u| <= |s| && u == s[|s| - |u|..] && AllWhitespace(s[..|s| - |u|]) && (u == [] || !IsWhitespace(u[0]))
    requires |t| <= |u| && t == u[..|t|] && AllWhitespace(u[|t|..]) && (t == [] || !IsWhitespace(t[|t| - 1]))
    ensures i <= j <= |s| && t == s[i..j]
    ensures AllWhitespace(s[..i]) && AllWhitespace(s[j..])
    ensures t == [] || (!IsWhitespace(t[0]) && !IsWhitespace(t[|t| - 1]))
  {
    i := |s| - |u|;
    j := i + |t|;
    SliceOfSuffix(s, i, u, |t|);
    if t != [] {
      assert t[0] == u[0];
    }
  }

  /** Slicing a suffix `u` of `s` is slicing `s`. */
  lemma SliceOfSuffix(s: string, i: nat, u: string, n: nat)
    requires i <= |s| && u == s[i..] && n <= |u|
    ensures u[..n] == s[i..i + n] && u[n..] == s[i + n..]
  {
  }

  /** Text that neither starts nor ends with white space is its own trim. */
  lemma TrimUnpadded(s: string)
    requires s == [] || (!IsWhitespace(s[0]) && !IsWhitespace(s[|s| - 1]))
    ensures Trim(s) == s
  {
  }

  /** White space added at either end does not change the trimmed text. */
  lemma {:induction false} TrimPadding(l: string, t: string, r: string)
    requires AllWhitespace(l) && AllWhitespace(r)
    ensures Trim(l + t + r) == Trim(t)
  {
    assert l + t + r == l + (t + r);
    TrimStartPadding(l, t + r);
    TrimStartAppend(t, r);
  }

  lemma {:induction false} TrimStartPadding(l: string, t: string)
    requires AllWhitespace(l)
    ensures TrimStart(l + t) == TrimStart(t)
  {
    if l != [] {
      assert (l + t)[0] == l[0] && IsWhitespace(l[0]);
      assert (l + t)[1..] == l[1..] + t;
      TrimStartPadding(l[1..], t);
    } else {
      assert l + t == t;
    }
  }

  lemma {:induction false} TrimEndPadding(t: string, r: string)
    requires AllWhitespace(r)
    ensures TrimEnd(t + r) == TrimEnd(t)
  {
    if r != [] {
      assert (t + r)[|t + r| - 1] == r[|r| - 1] && IsWhitespace(r[|r| - 1]);
      assert (t + r)[..|t + r| - 1] == t + r[..|r| - 1];
      TrimEndPadding(t, r[..|r| - 1]);
    } else {
      assert t + r == t;
    }
  }

  /**
   * Trimming the start of `t + r` with `r` all white space: either the
   * start of `t` is not all white space and `r` stays at the end, or
   * everything goes.
   */
  lemma {:induction false} TrimStartAppend(t: string, r: string)
    requires AllWhitespace(r)
    ensures TrimEnd(TrimStart(t + r)) == TrimEnd(TrimStart(t))
  {
    if t == [] {
      assert t + r == r;
      TrimStartAllWhitespace(r);
    } else if IsWhitespace(t[0]) {
      assert (t + r)[1..] == t[1..] + r;
      TrimStartAppend(t[1..], r);
    } else {
      TrimEndPadding(t, r);
    }
  }

  lemma {:induction false} TrimStartAllWhitespace(r: string)
    requires AllWhitespace(r)
    ensures TrimStart(r) == []
  {
    if r != [] {
      TrimStartAllWhitespace(r[1..]);
    }
  }

  function LowerChar(c: char): char {
    if 'A' <= c <= 'Z' then (c as int - 'A' as int + 'a' as int) as char else c
  }

  /** JavaScript `s.toLowerCase()` on the ASCII letters. */
  function ToLower(s: string): (r: string)
    ensures |r| == |s|
    ensures forall i :: 0 <= i < |s| ==> r[i] == LowerChar(s[i])
  {
    seq(|s|, i requires 0 <= i < |s| => LowerChar(s[i]))
  }

  /** Index of the first `c` in `s`, or `|s|` when there is none. */
  function IndexOf(s: string, c: char): (i: nat)
    ensures i <= |s|
    ensures i < |s| ==> s[i] == c
    ensures forall j :: 0 <= j < i ==> s[j] != c
  {
    if s == [] then 0
    else if s[0] == c then 0
    else 1 + IndexOf(s[1..], c)
  }

  /** JavaScript `s.split(sep)` with a one-character separator. */
  function Split(s: string, sep: char): (r: seq<string>)
    ensures |r| >= 1
    ensures forall k :: 0 <= k < |r| ==> sep !in r[k]
    decreases |s|
  {
    var i := IndexOf(s, sep);
    if i == |s| then [s] else [s[..i]] + Split(s[i + 1..], sep)
  }

  /** JavaScript `parts.join(sep)`. */
  function Join(parts: seq<string>, sep: char): string
    requires |parts| >= 1
  {
    if |parts| == 1 then parts[0] else parts[0] + [sep] + Join(parts[1..], sep)
  }

  /** `split` and `join` are inverse: joining the pieces gives back the text. */
  lemma {:induction false} JoinSplit(s: string, sep: char)
    ensures Join(Split(s, sep), sep) == s
    decreases |s|
  {
    var i := IndexOf(s, sep);
    if i < |s| {
      var rest := Split(s[i + 1..], sep);
      assert Split(s, sep) == [s[..i]] + rest;
      assert Join(Split(s, sep), sep) == s[..i] + [sep] + Join(rest, sep);
      JoinSplit(s[i + 1..], sep);
      assert s == s[..i] + [sep] + s[i + 1..];
    } else {
      assert Split(s, sep) == [s];
    }
  }

  /** Splitting pieces that hold no separator gives those pieces back. */
  lemma {:induction false} SplitJoin(parts: seq<string>, sep: char)
    requires |parts| >= 1
    requires forall k :: 0 <= k < |parts| ==> sep !in parts[k]
    ensures Split(Join(parts, sep), sep) == parts
  {
    var s := Join(parts, sep);
    IndexOfNoSep(parts[0], sep);
    if |parts| == 1 {
    } else {
      var rest := Join(parts[1..], sep);
      assert s == parts[0] + ([sep] + rest);
      IndexOfPrefix(parts[0], [sep] + rest, sep);
      assert s[|parts[0]| + 1..] == rest;
      assert s[..|parts[0]|] == parts[0];
      SplitJoin(parts[1..], sep);
    }
  }

  /** Text without the separator is a single piece. */
  lemma SplitNoSep(s: string, sep: char)
    requires sep !in s
    ensures Split(s, sep) == [s]
  {
    IndexOfNoSep(s, sep);
  }

  lemma IndexOfNoSep(s: string, c: char)
    requires c !in s
    ensures IndexOf(s, c) == |s|
  {
  }

  lemma {:induction false} IndexOfPrefix(a: string, b: string, c: char)
    requires c !in a && b != [] && b[0] == c
    ensures IndexOf(a + b, c) == |a|
  {
    if a != [] {
      assert (a + b)[1..] == a[1..] + b;
      IndexOfPrefix(a[1..], b, c);
    }
  }

  /** Index of `c` in `a + b` when `a` holds no `c`. */
  lemma {:induction false} IndexOfShift(a: string, b: string, c: char)
    requires c !in a
    ensures IndexOf(a + b, c) == |a| + IndexOf(b, c)
  {
    if a != [] {
      assert (a + b)[1..] == a[1..] + b;
      IndexOfShift(a[1..], b, c);
    } else {
      assert a + b == b;
    }
  }

  /** Index of `c` in `a + b` when `a` already holds a `c`. */
  lemma {:induction false} IndexOfWithin(a: string, b: string, c: char)
    requires IndexOf(a, c) < |a|
    ensures IndexOf(a + b, c) == IndexOf(a, c)
  {
    if a[0] != c {
      assert (a + b)[1..] == a[1..] + b;
      IndexOfWithin(a[1..], b, c);
    }
  }

  /** Splitting two texts joined by the separator gives the pieces of both. */
  lemma {:induction false} SplitConcat(a: string, b: string, sep: char)
    ensures Split(a + [sep] + b, sep) == Split(a, sep) + Split(b, sep)
    decreases |a|
  {
    var s := a + [sep] + b;
    var i := IndexOf(a, sep);
    assert s == a + ([sep] + b);
    if i == |a| {
      IndexOfPrefix(a, [sep] + b, sep);
      SliceAfterPrefix(a, [sep] + b, 0);
      SplitStepAt(s, sep, |a|, a, b);
      SplitWhole(a, sep);
    } else {
      var rest := a[i + 1..];
      IndexOfWithin(a, [sep] + b, sep);
      SliceBeforeSuffix(a, [sep] + b, i);
      assert rest + ([sep] + b) == rest + [sep] + b;
      SplitStepAt(s, sep, i, a[..i], rest + [sep] + b);
      SplitConcat(rest, b, sep);
      SplitStepAt(a, sep, i, a[..i], rest);
      ConsAppend(a[..i], Split(rest, sep), Split(b, sep));
    }
  }

  /** A piece put in front of a concatenation. */
  lemma ConsAppend(x: string, p: seq<string>, q: seq<string>)
    ensures [x] + (p + q) == [x] + p + q
  {
  }

  /** Text without the separator in front only lengthens the first piece. */
  lemma SplitPrefix(l: string, t: string, sep: char)
    requires sep !in l
    ensures var p := Split(t, sep); Split(l + t, sep) == [l + p[0]] + p[1..]
  {
    IndexOfShift(l, t, sep);
    if IndexOf(t, sep) < |t| {
      SplitPrefixAt(l, t, sep);
    } else {
      SplitPrefixWhole(l, t, sep);
    }
  }

  lemma SplitPrefixAt(l: string, t: string, sep: char)
    requires IndexOf(t, sep) < |t| && IndexOf(l + t, sep) == |l| + IndexOf(t, sep)
    ensures var p := Split(t, sep); Split(l + t, sep) == [l + p[0]] + p[1..]
  {
    var i := IndexOf(t, sep);
    SplitAfterPrefix(l, t, sep, i);
    SplitPrefixJoin(l, t, sep, i);
  }

  /** The first separator of `l + t` is the first of `t`. */
  lemma SplitAfterPrefix(l: string, t: string, sep: char, i: nat)
    requires i < |t| && IndexOf(l + t, sep) == |l| + i
    ensures Split(l + t, sep) == [l + t[..i]] + Split(t[i + 1..], sep)
  {
    SliceAfterPrefix(l, t, i);
    SplitStepAt(l + t, sep, |l| + i, l + t[..i], t[i + 1..]);
  }

  lemma SplitPrefixJoin(l: string, t: string, sep: char, i: nat)
    requires i < |t| && IndexOf(t, sep) == i
    requires Split(l + t, sep) == [l + t[..i]] + Split(t[i + 1..], sep)
    ensures var p := Split(t, sep); Split(l + t, sep) == [l + p[0]] + p[1..]
  {
    SplitHeadTail(t, sep);
  }

  /** The first piece of `split` and the pieces after it. */
  lemma SplitHeadTail(t: string, sep: char)
    requires IndexOf(t, sep) < |t|
    ensures Split(t, sep)[0] == t[..IndexOf(t, sep)]
    ensures Split(t, sep)[1..] == Split(t[IndexOf(t, sep) + 1..], sep)
  {
    var i := IndexOf(t, sep);
    var rest := Split(t[i + 1..], sep);
    SplitStep(t, sep);
    assert ([t[..i]] + rest)[1..] == rest;
  }

  /** Slicing `l + t` around position `i` of `t`. */
  lemma SliceAfterPrefix(l: string, t: string, i: nat)
    requires i < |t|
    ensures (l + t)[..|l| + i] == l + t[..i]
    ensures (l + t)[|l| + i + 1..] == t[i + 1..]
  {
  }

  lemma SplitPrefixWhole(l: string, t: string, sep: char)
    requires IndexOf(t, sep) == |t| && IndexOf(l + t, sep) == |l + t|
    ensures var p := Split(t, sep); Split(l + t, sep) == [l + p[0]] + p[1..]
  {
    SplitWhole(l + t, sep);
    SplitWhole(t, sep);
    assert [t][1..] == [];
  }

  /** One step of `split`: the text up to the first separator, then the pieces after it. */
  lemma SplitStep(s: string, sep: char)
    requires IndexOf(s, sep) < |s|
    ensures var i := IndexOf(s, sep); Split(s, sep) == [s[..i]] + Split(s[i + 1..], sep)
  {
  }

  /** `SplitStep` with the index of the first separator and the text around it given. */
  lemma SplitStepAt(s: string, sep: char, i: nat, before: string, after: string)
    requires IndexOf(s, sep) == i < |s| && s[..i] == before && s[i + 1..] == after
    ensures Split(s, sep) == [before] + Split(after, sep)
  {
  }

  /** Text without the separator is one piece. */
  lemma SplitWhole(s: string, sep: char)
    requires IndexOf(s, sep) == |s|
    ensures Split(s, sep) == [s]
  {
  }

  /** Text without the separator at the back only lengthens the last piece. */
  lemma {:induction false} SplitSuffix(t: string, r: string, sep: char)
    requires sep !in r
    ensures var p := Split(t, sep);
      Split(t + r, sep) == p[..|p| - 1] + [p[|p| - 1] + r]
    decreases |t|
  {
    var i := IndexOf(t, sep);
    if i == |t| {
      IndexOfShift(t, r, sep);
      IndexOfNoSep(r, sep);
      SplitSuffixWhole(t, r, sep);
    } else {
      IndexOfWithin(t, r, sep);
      SplitBeforeSuffix(t, r, sep, i);
      SplitSuffix(t[i + 1..], r, sep);
      SplitSuffixJoin(t, r, sep, i);
    }
  }

  lemma SplitSuffixWhole(t: string, r: string, sep: char)
    requires IndexOf(t, sep) == |t| && IndexOf(t + r, sep) == |t + r|
    ensures var p := Split(t, sep);
      Split(t + r, sep) == p[..|p| - 1] + [p[|p| - 1] + r]
  {
    SplitWhole(t, sep);
    SplitWhole(t + r, sep);
    assert [t][..0] == [];
  }

  /** The first separator of `t + r` is the first of `t`. */
  lemma SplitBeforeSuffix(t: string, r: string, sep: char, i: nat)
    requires i < |t| && IndexOf(t + r, sep) == i
    ensures Split(t + r, sep) == [t[..i]] + Split(t[i + 1..] + r, sep)
  {
    SliceBeforeSuffix(t, r, i);
    SplitStepAt(t + r, sep, i, t[..i], t[i + 1..] + r);
  }

  /** Slicing `t + r` around position `i` of `t`. */
  lemma SliceBeforeSuffix(t: string, r: string, i: nat)
    requires i < |t|
    ensures (t + r)[..i] == t[..i]
    ensures (t + r)[i + 1..] == t[i + 1..] + r
  {
  }

  lemma SplitSuffixJoin(t: string, r: string, sep: char, i: nat)
    requires IndexOf(t, sep) == i < |t|
    requires Split(t + r, sep) == [t[..i]] + Split(t[i + 1..] + r, sep)
    requires var q := Split(t[i + 1..], sep);
      Split(t[i + 1..] + r, sep) == q[..|q| - 1] + [q[|q| - 1] + r]
    ensures var p := Split(t, sep);
      Split(t + r, sep) == p[..|p| - 1] + [p[|p| - 1] + r]
  {
    SplitStepAt(t, sep, i, t[..i], t[i + 1..]);
    SnocHead(t[..i], Split(t[i + 1..], sep), r);
  }

  /** Lengthening the last piece of `[a] + q` when `q` is not empty. */
  lemma SnocHead(a: string, q: seq<string>, r: string)
    requires |q| >= 1
    ensures var p := [a] + q;
      [a] + (q[..|q| - 1] + [q[|q| - 1] + r]) == p[..|p| - 1] + [p[|p| - 1] + r]
  {
    var p := [a] + q;
    assert p[..|p| - 1] == [a] + q[..|q| - 1];
  }

  /**
   * Splitting untrimmed text and trimming each piece gives the same pieces
   * as splitting the trimmed text, when the separator is not white space.
   */
  lemma SplitTrimmed(s: string, sep: char)
    requires !IsWhitespace(sep)
    ensures var p := Split(s, sep); var q := Split(Trim(s), sep);
      |p| == |q| && forall k :: 0 <= k < |p| ==> Trim(p[k]) == Trim(q[k])
  {
    var i, j := TrimBounds(s);
    SliceThree(s, i, j);
    SplitPadded(s[..i], s[i..j], s[j..], sep);
  }

  lemma SliceThree(s: string, i: nat, j: nat)
    requires i <= j <= |s|
    ensures s[..i] + s[i..j] + s[j..] == s
  {
  }

  /** Pieces whose first gained the padding `l` and whose last gained `r` trim as before. */
  lemma PaddedPieces(p: seq<string>, m: seq<string>, q: seq<string>, l: string, r: string)
    requires AllWhitespace(l) && AllWhitespace(r) && q != []
    requires m == q[..|q| - 1] + [q[|q| - 1] + r] && p == [l + m[0]] + m[1..]
    ensures |p| == |q| && forall k :: 0 <= k < |p| ==> Trim(p[k]) == Trim(q[k])
  {
    forall k | 0 <= k < |p|
      ensures Trim(p[k]) == Trim(q[k])
    {
      PaddedPiece(p, m, q, l, r, k);
    }
  }

  lemma PaddedPiece(p: seq<string>, m: seq<string>, q: seq<string>, l: string, r: string, k: nat)
    requires AllWhitespace(l) && AllWhitespace(r) && k < |q|
    requires m == q[..|q| - 1] + [q[|q| - 1] + r] && p == [l + m[0]] + m[1..]
    ensures Trim(p[k]) == Trim(q[k])
  {
    if |q| == 1 {
      assert p[k] == l + q[0] + r;
      TrimPadding(l, q[0], r);
    } else if k == 0 {
      assert p[k] == l + q[0] + [];
      TrimPadding(l, q[0], []);
    } else if k == |q| - 1 {
      assert p[k] == [] + q[k] + r;
      TrimPadding([], q[k], r);
    } else {
      assert p[k] == q[k];
    }
  }

  /** Pieces of `l + t + r` for white-space padding `l`, `r`. */
  lemma SplitPadded(l: string, t: string, r: string, sep: char)
    requires AllWhitespace(l) && AllWhitespace(r) && !IsWhitespace(sep)
    ensures var p := Split(l + t + r, sep); var q := Split(t, sep);
      |p| == |q| && forall k :: 0 <= k < |p| ==> Trim(p[k]) == Trim(q[k])
  {
    assert sep !in l && sep !in r;
    SplitPrefix(l, t + r, sep);
    SplitSuffix(t, r, sep);
    assert l + t + r == l + (t + r);
    var q := Split(t, sep);
    var m := Split(t + r, sep);
    var p := Split(l + t + r, sep);
    assert p == [l + m[0]] + m[1..];
    assert m == q[..|q| - 1] + [q[|q| - 1] + r];
    PaddedPieces(p, m, q, l, r);
  }

  /** First index at which `p` occurs in `s`, if any. */
  function FirstOccurrence(s: string, p: string): (r: Option<nat>)
    ensures r.Some? ==> OccursAt(s, p, r.value)
    ensures r.Some? ==> forall j :: 0 <= j < r.value ==> !OccursAt(s, p, j)
    ensures r.None? ==> forall j :: !OccursAt(s, p, j)
    decreases |s|
  {
    if StartsWith(s, p) then Some(0)
    else if s == [] then None
    else
      match FirstOccurrence(s[1..], p)
      case Some(j) => (assert forall k :: 0 < k ==> OccursAt(s, p, k) == OccursAt(s[1..], p, k - 1);
                       Some(j + 1))
      case None => (assert forall k :: 0 < k ==> OccursAt(s, p, k) == OccursAt(s[1..], p, k - 1);
                    None)
  }

  /**
   * JavaScript `s.replace(p, rep)` with a string pattern: only the first
   * occurrence is replaced, and the replacement text is taken literally.
   */
  function ReplaceFirst(s: string, p: string, rep: string): string {
    match FirstOccurrence(s, p)
    case Some(i) => s[..i] + rep + s[i + |p|..]
    case None => s
  }

  /** Without an occurrence of the pattern the text is returned unchanged. */
  lemma ReplaceFirstAbsent(s: string, p: string, rep: string)
    requires !Contains(s, p)
    ensures ReplaceFirst(s, p, rep) == s
  {
  }

  /**
   * Only the first occurrence is replaced: in `a + p + b` where no
   * occurrence starts inside `a`, the result is `a + rep + b`, whatever `b`
   * holds, further occurrences included.
   */
  lemma ReplaceFirstAt(a: string, p: string, b: string, rep: string)
    requires forall j :: 0 <= j < |a| ==> !OccursAt(a + p + b, p, j)
    ensures ReplaceFirst(a + p + b, p, rep) == a + rep + b
  {
    var s := a + p + b;
    assert OccursAt(s, p, |a|) by {
      assert s[|a|..|a| + |p|] == p;
    }
    var i := FirstOccurrence(s, p).value;
    assert i == |a|;
    assert s[..i] == a;
    assert s[i + |p|..] == b;
  }

  /**
   * The replacement text of a string-pattern `replace` as JavaScript
   * reads it (GetSubstitution of ECMA-262): `$$` stands for `$`, `$&` for
   * the matched text, `` $` `` for the text before the match and `$'` for
   * the text after it; with no capture groups every other `$` is literal.
   */
  function Expand(rep: string, matched: string, before: string, after: string): string
    decreases |rep|
  {
    if |rep| >= 2 && rep[0] == '$' && rep[1] in "$&`'" then
      var piece := match rep[1]
        case '$' => "$"
        case '&' => matched
        case '`' => before
        case _ => after;
      piece + Expand(rep[2..], matched, before, after)
    else if rep == [] then []
    else [rep[0]] + Expand(rep[1..], matched, before, after)
  }

  /** A replacement text without `$` is inserted as it is. */
  lemma {:induction false} ExpandLiteral(rep: string, matched: string, before: string, after: string)
    requires '$' !in rep
    ensures Expand(rep, matched, before, after) == rep
    decreases |rep|
  {
    if rep != [] {
      assert rep[0] != '$';
      assert '$' !in rep[1..] by {
        forall k | 0 <= k < |rep[1..]| ensures rep[1..][k] != '$' {
          assert rep[1..][k] == rep[k + 1];
        }
      }
      ExpandLiteral(rep[1..], matched, before, after);
      assert rep == [rep[0]] + rep[1..];
    }
  }

  /** JavaScript `s.replace(p, rep)` with a string pattern, `$` patterns expanded. */
  function ReplaceFirstExpanding(s: string, p: string, rep: string): string {
    match FirstOccurrence(s, p)
    case Some(i) => s[..i] + Expand(rep, p, s[..i], s[i + |p|..]) + s[i + |p|..]
    case None => s
  }

  /** Expansion makes no difference when the replacement holds no `$`. */
  lemma ReplaceFirstExpandingLiteral(s: string, p: string, rep: string)
    requires '$' !in rep
    ensures ReplaceFirstExpanding(s, p, rep) == ReplaceFirst(s, p, rep)
  {
    match FirstOccurrence(s, p)
    case Some(i) =>
      var a, b := s[..i], s[i + |p|..];
      assert ReplaceFirstExpanding(s, p, rep) == a + Expand(rep, p, a, b) + b;
      assert ReplaceFirst(s, p, rep) == a + rep + b;
      ExpandingAt(s, p, rep, i);
    case None =>
  }

  /** The replaced text at an occurrence, with the replacement expanded or taken as it is. */
  lemma ExpandingAt(s: string, p: string, rep: string, i: nat)
    requires '$' !in rep && i + |p| <= |s|
    ensures s[..i] + Expand(rep, p, s[..i], s[i + |p|..]) + s[i + |p|..] == s[..i] + rep + s[i + |p|..]
  {
    ExpandLiteral(rep, p, s[..i], s[i + |p|..]);
  }
}
