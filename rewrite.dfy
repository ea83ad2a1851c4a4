/**
 * The JavaScript `String.prototype.replace` with a global regular expression,
 * for the handful of expressions the build scripts use. A replace scans the
 * text left to right; at each position it asks the expression for its first
 * match under JavaScript's backtracking order, substitutes it and resumes
 * after it, or copies one character and moves on. Matches never overlap.
 */
module Rewrite {
  import opened Wrappers
  import opened Text

  /** The regular expressions that occur in the build scripts. */
  datatype Pattern =
    /** A literal text such as `/window\.top/`. */
    | Literal(text: string)
    /** `/this\.isTop\s*=\s*RHS/`. */
    | IsTopAssign(rhs: string)
    /** `/var VARIABLE = '.*?';\s*\/\/\s*TAG/`. */
    | StoreLinkAssign(variable: string, tag: string)
    /** `/<script.*?src=["'](.*?)["'].*?><\/script>/`, one capture group. */
    | ScriptTag

  /** A match at the start of the remaining text: its length and group 1. */
  datatype Match = Match(len: nat, group: string)

  /** What a match is replaced with. */
  datatype Replacement =
    /** A literal replacement text (no `$` patterns are used by the scripts). */
    | Fixed(text: string)
    /**
     * A callback that returns the matched text unchanged when the captured
     * group contains `marker`, and `text` otherwise.
     */
    | KeepOrReplace(marker: string, text: string)

  const IsTopName := "this.isTop"
  const ScriptOpen := "<script"
  const SrcAttr := "src="
  const ScriptClose := "></script>"

  /** The literal text every match of `p` begins with. */
  function Lead(p: Pattern): string {
    match p
    case Literal(t) => t
    case IsTopAssign(_) => IsTopName
    case StoreLinkAssign(v, _) => LinkHead(v)
    case ScriptTag => ScriptOpen
  }

  function LinkHead(variable: string): string {
    "var " + variable + " = '"
  }

  /** Index of the first character at or after `i` that is not white space (greedy `\s*`). */
  function SkipWs(x: string, i: nat): (j: nat)
    requires i <= |x|
    ensures i <= j <= |x|
    ensures forall k :: i <= k < j ==> IsWhitespace(x[k])
    ensures j == |x| || !IsWhitespace(x[j])
    decreases |x| - i
  {
    if i < |x| && IsWhitespace(x[i]) then SkipWs(x, i + 1) else i
  }

  /**
   * `\s*=\s*RHS` from index `i`, end of the match if any. The greedy `\s*`
   * never has to give back characters, because `=` is not white space and
   * neither is the first character of the right-hand sides in use.
   */
  function IsTopRest(x: string, i: nat, rhs: string): (e: Option<nat>)
    requires i <= |x|
    ensures e.Some? ==> i < e.value <= |x|
  {
    var j := SkipWs(x, i);
    if j < |x| && x[j] == '=' then
      var k := SkipWs(x, j + 1);
      if OccursAt(x, rhs, k) then Some(k + |rhs|) else None
    else None
  }

  /** `';\s*\/\/\s*TAG` at index `k`, end of the match if any. */
  function LinkTail(x: string, k: nat, tag: string): (e: Option<nat>)
    requires k <= |x|
    ensures e.Some? ==> k + 2 <= e.value <= |x| && OccursAt(x, "';", k)
  {
    if OccursAt(x, "';", k) then
      var i := SkipWs(x, k + 2);
      if OccursAt(x, "//", i) then
        var j := SkipWs(x, i + 2);
        if OccursAt(x, tag, j) then Some(j + |tag|) else None
      else None
    else None
  }

  /**
   * The lazy `.*?` of the store-link expression from index `k`: the first
   * end position at which the tail matches, trying the shortest gap first
   * and never crossing a line terminator.
   */
  function LinkScan(x: string, k: nat, tag: string): (e: Option<nat>)
    requires k <= |x|
    ensures e.Some? ==> k + 2 <= e.value <= |x|
    decreases |x| - k
  {
    match LinkTail(x, k, tag)
    case Some(e) => Some(e)
    case None =>
      if k == |x| || IsLineTerminator(x[k]) then None else LinkScan(x, k + 1, tag)
  }

  predicate IsQuote(c: char) {
    c == '"' || c == '\''
  }

  /** `.*?><\/script>` from index `j`: end of the first reachable `></script>`. */
  function CloseFrom(x: string, j: nat): (e: Option<nat>)
    requires j <= |x|
    ensures e.Some? ==> j + |ScriptClose| <= e.value <= |x|
    decreases |x| - j
  {
    if OccursAt(x, ScriptClose, j) then Some(j + |ScriptClose|)
    else if j == |x| || IsLineTerminator(x[j]) then None
    else CloseFrom(x, j + 1)
  }

  /**
   * `(.*?)["'].*?><\/script>` from index `j`: the index of the quote that
   * ends group 1 and the end of the whole match.
   */
  function GroupFrom(x: string, j: nat): (r: Option<(nat, nat)>)
    requires j <= |x|
    ensures r.Some? ==> j <= r.value.0 < r.value.1 <= |x|
    decreases |x| - j
  {
    if j == |x| then None
    else if IsQuote(x[j]) && CloseFrom(x, j + 1).Some? then Some((j, CloseFrom(x, j + 1).value))
    else if IsLineTerminator(x[j]) then None
    else GroupFrom(x, j + 1)
  }

  /** `.*?src=["'](.*?)["'].*?><\/script>` from index `k`. */
  function SrcFrom(x: string, k: nat): (r: Option<Match>)
    requires k <= |x|
    ensures r.Some? ==> k < r.value.len <= |x|
    decreases |x| - k
  {
    if OccursAt(x, SrcAttr, k) && k + 4 < |x| && IsQuote(x[k + 4]) && GroupFrom(x, k + 5).Some? then
      var g := GroupFrom(x, k + 5).value;
      Some(Match(g.1, x[k + 5..g.0]))
    else if k == |x| || IsLineTerminator(x[k]) then None
    else SrcFrom(x, k + 1)
  }

  /** The first match of `p` that starts at index 0 of `x`, if any. */
  function MatchAt(p: Pattern, x: string): (m: Option<Match>)
    ensures m.Some? ==> 0 < m.value.len <= |x| && StartsWith(x, Lead(p))
  {
    match p
    case Literal(t) =>
      if t != [] && StartsWith(x, t) then Some(Match(|t|, [])) else None
    case IsTopAssign(rhs) =>
      if StartsWith(x, IsTopName) then
        match IsTopRest(x, |IsTopName|, rhs)
        case Some(e) => Some(Match(e, []))
        case None => None
      else None
    case StoreLinkAssign(v, tag) =>
      var head := LinkHead(v);
      if StartsWith(x, head) then
        match LinkScan(x, |head|, tag)
        case Some(e) => Some(Match(e, []))
        case None => None
      else None
    case ScriptTag =>
      if StartsWith(x, ScriptOpen) then SrcFrom(x, |ScriptOpen|) else None
  }

  /** A store-link assignment matches where its head is followed by a complete scan. */
  lemma StoreLinkMatch(variable: string, tag: string, x: string, e: nat)
    requires StartsWith(x, LinkHead(variable)) && LinkScan(x, |LinkHead(variable)|, tag) == Some(e)
    ensures MatchAt(StoreLinkAssign(variable, tag), x) == Some(Match(e, []))
  {
  }

  function Substitute(r: Replacement, matched: string, group: string): string {
    match r
    case Fixed(t) => t
    case KeepOrReplace(marker, t) => if Contains(group, marker) then matched else t
  }

  /** `x.replace(/p/g, r)`. */
  function ReplaceAll(p: Pattern, r: Replacement, x: string): string
    decreases |x|
  {
    if x == [] then []
    else
      match MatchAt(p, x)
      case Some(m) => Substitute(r, x[..m.len], m.group) + ReplaceAll(p, r, x[m.len..])
      case None => [x[0]] + ReplaceAll(p, r, x[1..])
  }

  /** No match of `p` starts at any of the first `n` positions of `x`. */
  predicate NoMatchBefore(p: Pattern, x: string, n: nat)
    requires n <= |x|
  {
    forall i :: 0 <= i < n ==> MatchAt(p, x[i..]).None?
  }

  /** A replace copies a stretch in which no match starts, and carries on after it. */
  lemma {:induction false} ReplaceAllUnmatchedPrefix(p: Pattern, r: Replacement, a: string, b: string)
    requires NoMatchBefore(p, a + b, |a|)
    ensures ReplaceAll(p, r, a + b) == a + ReplaceAll(p, r, b)
    decreases |a|
  {
    if a == [] {
      assert a + b == b;
    } else {
      NoMatchBeforeTail(p, a, b);
      ReplaceAllNoMatchFirst(p, r, a + b);
      ReplaceAllUnmatchedPrefix(p, r, a[1..], b);
      ConsSplit(a, b, ReplaceAll(p, r, b));
    }
  }

  /** Dropping the first character of an unmatched stretch. */
  lemma NoMatchBeforeTail(p: Pattern, a: string, b: string)
    requires a != [] && NoMatchBefore(p, a + b, |a|)
    ensures MatchAt(p, a + b).None? && (a + b)[1..] == a[1..] + b
    ensures NoMatchBefore(p, a[1..] + b, |a| - 1)
  {
    var x := a + b;
    assert x[0..] == x;
    forall i | 0 <= i < |a| - 1
      ensures MatchAt(p, (a[1..] + b)[i..]).None?
    {
      assert (a[1..] + b)[i..] == x[i + 1..];
    }
  }

  lemma ConsSplit(a: string, b: string, y: string)
    requires a != []
    ensures (a + b)[0] == a[0] && [a[0]] + (a[1..] + y) == a + y
  {
  }

  /** Text in which no match starts anywhere comes back unchanged. */
  lemma ReplaceAllNoMatch(p: Pattern, r: Replacement, x: string)
    requires NoMatchBefore(p, x, |x|)
    ensures ReplaceAll(p, r, x) == x
  {
    assert x + [] == x;
    ReplaceAllUnmatchedPrefix(p, r, x, []);
  }

  /** Text that does not contain the lead of `p` has no match of `p`. */
  lemma NoLeadNoMatch(p: Pattern, x: string)
    requires !Contains(x, Lead(p))
    ensures NoMatchBefore(p, x, |x|)
  {
    forall i | 0 <= i < |x|
      ensures MatchAt(p, x[i..]).None?
    {
      if MatchAt(p, x[i..]).Some? {
        assert x[i..][..|Lead(p)|] == x[i..i + |Lead(p)|];
        assert OccursAt(x, Lead(p), i);
      }
    }
  }

  /** A replace leaves text without the lead of its pattern unchanged. */
  lemma ReplaceAllNoLead(p: Pattern, r: Replacement, x: string)
    requires !Contains(x, Lead(p))
    ensures ReplaceAll(p, r, x) == x
  {
    NoLeadNoMatch(p, x);
    ReplaceAllNoMatch(p, r, x);
  }

  /** A match at the front is substituted and the replace resumes after it. */
  lemma ReplaceAllMatchFirst(p: Pattern, r: Replacement, x: string, b: string, m: Match)
    requires MatchAt(p, x + b) == Some(m) && m.len == |x|
    ensures ReplaceAll(p, r, x + b) == Substitute(r, x, m.group) + ReplaceAll(p, r, b)
  {
    assert (x + b)[..m.len] == x;
    assert (x + b)[m.len..] == b;
  }

  /** Where no match starts at the front, the first character is copied. */
  lemma ReplaceAllNoMatchFirst(p: Pattern, r: Replacement, x: string)
    requires x != [] && MatchAt(p, x).None?
    ensures ReplaceAll(p, r, x) == [x[0]] + ReplaceAll(p, r, x[1..])
  {
  }

  /**
   * Replace in context: after an unmatched stretch `a`, a match that covers
   * exactly `t` is substituted and the rest of the text is replaced on its
   * own.
   */
  lemma ReplaceAllInContext(p: Pattern, r: Replacement, a: string, t: string, b: string, m: Match)
    requires NoMatchBefore(p, a + t + b, |a|)
    requires MatchAt(p, t + b) == Some(m) && m.len == |t|
    ensures ReplaceAll(p, r, a + t + b) == a + Substitute(r, t, m.group) + ReplaceAll(p, r, b)
  {
    Regroup(a, t, b);
    ReplaceAllUnmatchedPrefix(p, r, a, t + b);
    ReplaceAllMatchFirst(p, r, t, b, m);
    Regroup(a, Substitute(r, t, m.group), ReplaceAll(p, r, b));
  }

  lemma Regroup(a: string, t: string, b: string)
    ensures a + t + b == a + (t + b)
  {
  }
}
