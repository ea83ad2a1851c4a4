/**
 * The Phaser source patcher: four global replaces, applied once each and in
 * order, that stop the engine from reaching `window.top` and force its
 * `isTop` flag off.
 */
module Patcher {
  import opened Wrappers
  import opened Text
  import opened Rewrite

  const WindowTop := "window.top"
  const WindowWindow := "window.window"
  const Window := "window"

  /** `patchContent(content)`. */
  function PatchContent(content: string): string {
    var c := ReplaceAll(Literal(WindowTop), Fixed(Window), content);
    var c := ReplaceAll(Literal(WindowWindow), Fixed(Window), c);
    var c := ReplaceAll(IsTopAssign("!0"), Fixed("this.isTop=!1"), c);
    ReplaceAll(IsTopAssign("true"), Fixed("this.isTop=false"), c)
  }

  /** A literal pattern matches exactly where it occurs. */
  lemma LiteralMatch(t: string, x: string, i: nat)
    requires t != [] && i <= |x|
    ensures MatchAt(Literal(t), x[i..]).Some? <==> OccursAt(x, t, i)
  {
    if OccursAt(x, t, i) {
      assert x[i..][..|t|] == x[i..i + |t|];
    }
    if MatchAt(Literal(t), x[i..]).Some? {
      assert x[i..][..|t|] == x[i..i + |t|];
    }
  }

  /**
   * A literal pass replaces the leftmost occurrence, copies the text in
   * front of it and carries on after it, so occurrences never overlap.
   */
  lemma LiteralPassAt(t: string, w: string, a: string, b: string)
    requires t != []
    requires forall j :: 0 <= j < |a| ==> !OccursAt(a + t + b, t, j)
    ensures ReplaceAll(Literal(t), Fixed(w), a + t + b) == a + w + ReplaceAll(Literal(t), Fixed(w), b)
  {
    var x := a + t + b;
    forall i | 0 <= i < |a|
      ensures MatchAt(Literal(t), x[i..]).None?
    {
      LiteralMatch(t, x, i);
    }
    assert (t + b)[..|t|] == t;
    ReplaceAllInContext(Literal(t), Fixed(w), a, t, b, Match(|t|, []));
  }

  /** Text in which a literal does not occur is left as it is by its pass. */
  lemma LiteralPassAbsent(t: string, w: string, x: string)
    requires !Contains(x, t)
    ensures ReplaceAll(Literal(t), Fixed(w), x) == x
  {
    ReplaceAllNoLead(Literal(t), Fixed(w), x);
  }

  /** Content with none of the patterns is returned unchanged. */
  lemma PatchUntouched(content: string)
    requires !Contains(content, WindowTop) && !Contains(content, WindowWindow) && !Contains(content, IsTopName)
    ensures PatchContent(content) == content
  {
    LiteralPassAbsent(WindowTop, Window, content);
    LiteralPassAbsent(WindowWindow, Window, content);
    ReplaceAllNoLead(IsTopAssign("!0"), Fixed("this.isTop=!1"), content);
    ReplaceAllNoLead(IsTopAssign("true"), Fixed("this.isTop=false"), content);
  }

  /** A text whose characters never start the pattern does not contain it. */
  lemma NotContainsByFirst(x: string, t: string)
    requires t != [] && t[0] !in x
    ensures !Contains(x, t)
  {
  }

  /** A text of the pattern's length that differs from it does not contain it. */
  lemma NotContainsSameLength(x: string, t: string)
    requires |x| == |t| && x != t
    ensures !Contains(x, t)
  {
    assert x[0..|t|] == x;
  }

  /** The first pass on `window.top.top`. */
  lemma WindowTopTopFirstPass()
    ensures ReplaceAll(Literal(WindowTop), Fixed(Window), "window.top.top") == "window.top"
  {
    var x := WindowTop + ".top";
    assert x == "window.top.top";
    assert |WindowTop| == 10 && x[..|WindowTop|] == WindowTop;
    ReplaceAllMatchFirst(Literal(WindowTop), Fixed(Window), WindowTop, ".top", Match(10, []));
    LiteralPassAbsent(WindowTop, Window, ".top");
    assert Substitute(Fixed(Window), WindowTop, []) == Window;
    assert Window + ".top" == "window.top";
  }

  /** The last three passes leave `window.top` alone. */
  lemma WindowTopLaterPasses()
    ensures ReplaceAll(Literal(WindowWindow), Fixed(Window), "window.top") == "window.top"
    ensures ReplaceAll(IsTopAssign("!0"), Fixed("this.isTop=!1"), "window.top") == "window.top"
    ensures ReplaceAll(IsTopAssign("true"), Fixed("this.isTop=false"), "window.top") == "window.top"
  {
    LiteralPassAbsent(WindowWindow, Window, "window.top");
    NotContainsSameLength("window.top", IsTopName);
    ReplaceAllNoLead(IsTopAssign("!0"), Fixed("this.isTop=!1"), "window.top");
    ReplaceAllNoLead(IsTopAssign("true"), Fixed("this.isTop=false"), "window.top");
  }

  /**
   * The patch is one pass of each replace, not a fixpoint: `window.top.top`
   * becomes `window.top`.
   */
  lemma PatchIsSinglePass()
    ensures PatchContent("window.top.top") == "window.top"
  {
    WindowTopTopFirstPass();
    WindowTopLaterPasses();
  }

  /** The greedy `\s*` stops at the first character that is not white space. */
  lemma {:induction false} SkipWsOver(x: string, a: nat, n: nat)
    requires a + n < |x| && !IsWhitespace(x[a + n])
    requires forall j :: a <= j < a + n ==> IsWhitespace(x[j])
    ensures SkipWs(x, a) == a + n
    decreases n
  {
    if n > 0 {
      SkipWsOver(x, a + 1, n - 1);
    }
  }

  /** The text `this.isTop<ws1>=<ws2><rhs>`. */
  function IsTopText(ws1: string, ws2: string, rhs: string): string {
    IsTopName + ws1 + "=" + ws2 + rhs
  }

  /** The white space of an assignment inside the text. */
  lemma IsTopLayout(ws1: string, ws2: string, rhs: string, z: string)
    requires AllWhitespace(ws1) && AllWhitespace(ws2) && rhs != []
    ensures var x := IsTopText(ws1, ws2, rhs) + z;
      var e := 10 + |ws1|;
      && e < |x| && x[e] == '='
      && (forall j :: 10 <= j < e ==> IsWhitespace(x[j]))
      && (forall j :: e + 1 <= j < e + 1 + |ws2| ==> IsWhitespace(x[j]))
      && OccursAt(x, rhs, e + 1 + |ws2|)
      && x[..10] == IsTopName
  {
    var x := IsTopText(ws1, ws2, rhs) + z;
    var e := 10 + |ws1|;
    assert x == IsTopName + ws1 + "=" + ws2 + (rhs + z);
    forall j | 10 <= j < e
      ensures IsWhitespace(x[j])
    {
      assert x[j] == ws1[j - 10];
    }
    forall j | e + 1 <= j < e + 1 + |ws2|
      ensures IsWhitespace(x[j])
    {
      assert x[j] == ws2[j - e - 1];
    }
    assert x[e + 1 + |ws2|..e + 1 + |ws2| + |rhs|] == rhs;
  }

  /**
   * `this.isTop`, white space, `=`, white space and the right-hand side is
   * one match of the assignment expression, whatever follows it.
   */
  lemma IsTopMatches(ws1: string, ws2: string, rhs: string, z: string)
    requires AllWhitespace(ws1) && AllWhitespace(ws2) && rhs != [] && !IsWhitespace(rhs[0])
    ensures MatchAt(IsTopAssign(rhs), IsTopText(ws1, ws2, rhs) + z) == Some(Match(|IsTopText(ws1, ws2, rhs)|, []))
  {
    var x := IsTopText(ws1, ws2, rhs) + z;
    var e := 10 + |ws1|;
    IsTopLayout(ws1, ws2, rhs, z);
    SkipWsOver(x, 10, |ws1|);
    assert x[e + 1 + |ws2|] == rhs[0];
    SkipWsOver(x, e + 1, |ws2|);
  }

  /** An `isTop` pass rewrites an assignment with any white space to the compact form. */
  lemma IsTopPassAt(ws1: string, ws2: string, rhs: string, w: string, a: string, z: string)
    requires AllWhitespace(ws1) && AllWhitespace(ws2) && rhs != [] && !IsWhitespace(rhs[0])
    requires NoMatchBefore(IsTopAssign(rhs), a + IsTopText(ws1, ws2, rhs) + z, |a|)
    ensures ReplaceAll(IsTopAssign(rhs), Fixed(w), a + IsTopText(ws1, ws2, rhs) + z)
      == a + w + ReplaceAll(IsTopAssign(rhs), Fixed(w), z)
  {
    var t := IsTopText(ws1, ws2, rhs);
    IsTopMatches(ws1, ws2, rhs, z);
    ReplaceAllInContext(IsTopAssign(rhs), Fixed(w), a, t, z, Match(|t|, []));
  }

  /** The window passes leave a text without `w` alone. */
  lemma WindowPassesAbsent(c: string)
    requires 'w' !in c
    ensures ReplaceAll(Literal(WindowWindow), Fixed(Window), ReplaceAll(Literal(WindowTop), Fixed(Window), c)) == c
  {
    NotContainsByFirst(c, WindowTop);
    LiteralPassAbsent(WindowTop, Window, c);
    NotContainsByFirst(c, WindowWindow);
    LiteralPassAbsent(WindowWindow, Window, c);
  }

  /** The `!0` pass on `this.isTop = !0;`. */
  lemma SpacedAssignmentPass()
    ensures ReplaceAll(IsTopAssign("!0"), Fixed("this.isTop=!1"), "this.isTop = !0;") == "this.isTop=!1;"
  {
    SpacedText();
    IsTopMatches(" ", " ", "!0", ";");
    ReplaceAllMatchFirst(IsTopAssign("!0"), Fixed("this.isTop=!1"), IsTopText(" ", " ", "!0"), ";", Match(15, []));
    SemicolonStays();
  }

  lemma SpacedText()
    ensures "this.isTop = !0;" == IsTopText(" ", " ", "!0") + ";" && |IsTopText(" ", " ", "!0")| == 15
  {
  }

  lemma SemicolonStays()
    ensures ReplaceAll(IsTopAssign("!0"), Fixed("this.isTop=!1"), ";") == ";"
  {
    NotContainsByFirst(";", IsTopName);
    ReplaceAllNoLead(IsTopAssign("!0"), Fixed("this.isTop=!1"), ";");
  }

  /** The `true` pass leaves `this.isTop=!1;` alone. */
  lemma CompactAssignmentStays()
    ensures ReplaceAll(IsTopAssign("true"), Fixed("this.isTop=false"), "this.isTop=!1;") == "this.isTop=!1;"
  {
    var d := "this.isTop=!1;";
    CompactNoTrue();
    ReplaceAllNoMatchFirst(IsTopAssign("true"), Fixed("this.isTop=false"), d);
    CompactTail();
  }

  /** No `true` assignment starts at the front of `this.isTop=!1;`. */
  lemma CompactNoTrue()
    ensures MatchAt(IsTopAssign("true"), "this.isTop=!1;").None?
  {
    var d := "this.isTop=!1;";
    assert d[..10] == IsTopName;
    assert SkipWs(d, 10) == 10;
    assert SkipWs(d, 11) == 11;
    assert !OccursAt(d, "true", 11);
  }

  /** The rest of `this.isTop=!1;` after its first character holds no assignment. */
  lemma CompactTail()
    ensures ReplaceAll(IsTopAssign("true"), Fixed("this.isTop=false"), "this.isTop=!1;"[1..]) == "this.isTop=!1;"[1..]
  {
    var d := "this.isTop=!1;";
    assert d[1..] == "his.isTop=!1;";
    NotContainsByFirst(d[1..], IsTopName);
    ReplaceAllNoLead(IsTopAssign("true"), Fixed("this.isTop=false"), d[1..]);
  }

  /** `this.isTop = !0;` becomes `this.isTop=!1;`. */
  lemma IsTopSpacedTrue()
    ensures PatchContent("this.isTop = !0;") == "this.isTop=!1;"
  {
    WindowPassesAbsent("this.isTop = !0;");
    SpacedAssignmentPass();
    CompactAssignmentStays();
  }
}
