/**
 * Which networks the multi-network build script builds: the catalog of
 * selectable ad networks and the parser of the selection string typed at
 * the prompt. The parser is stated over any catalog; `Catalog` is the one
 * the script uses.
 */
module Selection {
  import opened Text

  /** The selectable ad networks in menu order; `chartboost` is commented out. */
  const Catalog: seq<string> := [
    "development", "aarki", "adcolony", "adikteev", "applovin", "bigabid",
    "facebook", "google", "ironsource", "liftoff", "mintegral", "moloco",
    "smadex", "tencent", "tiktok", "unity", "vungle"
  ]

  lemma CatalogSize()
    ensures |Catalog| == 17
  {
  }

  lemma CatalogDistinct()
    ensures Distinct(Catalog)
  {
  }

  lemma CatalogLowerCase()
    ensures forall i :: 0 <= i < |Catalog| ==> ToLower(Catalog[i]) == Catalog[i]
  {
  }

  lemma CatalogNoChartboost()
    ensures "chartboost" !in Catalog
  {
  }

  /** No network is called `all`, and no network name is a number. */
  lemma CatalogNamesAreWords()
    ensures forall i :: 0 <= i < |Catalog| ==> ToLower(Catalog[i]) != "all"
    ensures forall i :: 0 <= i < |Catalog| ==> !IsDigits(ToLower(Catalog[i]))
  {
    CatalogLowerCase();
    assert forall i :: 0 <= i < |Catalog| ==> !IsDigit(Catalog[i][0]) && Catalog[i] != "all";
  }

  predicate Distinct(s: seq<string>) {
    forall i, j :: 0 <= i < j < |s| ==> s[i] != s[j]
  }

  // ---------------------------------------------------------------------
  // Numbers
  // ---------------------------------------------------------------------

  predicate IsDigit(c: char) {
    '0' <= c <= '9'
  }

  /** `/^\d+$/`: one or more ASCII digits. */
  predicate IsDigits(s: string) {
    s != [] && forall i :: 0 <= i < |s| ==> IsDigit(s[i])
  }

  /** `/^\d+(,\d+)*$/.test(s)`: digit runs separated by single commas. */
  predicate IsNumberList(s: string) {
    var pieces := Split(s, ',');
    forall k :: 0 <= k < |pieces| ==> IsDigits(pieces[k])
  }

  /**
   * `parseInt(s)` of a string of decimal digits, the only strings it is
   * applied to in the number branch (other characters count as 0).
   */
  function DigitsValue(s: string): nat {
    if s == [] then 0
    else 10 * DigitsValue(s[..|s| - 1]) + (if IsDigit(s[|s| - 1]) then s[|s| - 1] as int - '0' as int else 0)
  }

  lemma DigitsTrimmed(s: string)
    requires IsDigits(s)
    ensures Trim(s) == s
  {
    assert !IsWhitespace(s[0]) && !IsWhitespace(s[|s| - 1]);
    TrimUnpadded(s);
  }

  /** Lower-casing leaves digits alone. */
  lemma DigitsLower(d: string)
    requires IsDigits(d)
    ensures ToLower(d) == d
  {
  }

  /** `selection.split(',').map(s => parseInt(s.trim()) - 1)`. */
  function PieceIndices(pieces: seq<string>): (r: seq<int>)
    ensures |r| == |pieces|
  {
    seq(|pieces|, k requires 0 <= k < |pieces| => PieceIndex(pieces[k]))
  }

  /** `parseInt(s.trim()) - 1` for one piece. */
  function PieceIndex(piece: string): int {
    DigitsValue(Trim(piece)) - 1
  }

  lemma PieceIndicesAppend(p: seq<string>, q: seq<string>)
    ensures PieceIndices(p + q) == PieceIndices(p) + PieceIndices(q)
  {
    var l, r := PieceIndices(p + q), PieceIndices(p) + PieceIndices(q);
    forall k | 0 <= k < |l|
      ensures l[k] == r[k]
    {
      PieceIndicesAt(p, q, k);
    }
  }

  lemma PieceIndicesAt(p: seq<string>, q: seq<string>, k: nat)
    requires k < |p| + |q|
    ensures PieceIndices(p + q)[k] == (PieceIndices(p) + PieceIndices(q))[k]
  {
    if k < |p| {
      assert (p + q)[k] == p[k];
    } else {
      assert (p + q)[k] == q[k - |p|];
    }
  }

  lemma PieceIndicesTrimmed(p: seq<string>, q: seq<string>)
    requires |p| == |q| && forall k :: 0 <= k < |p| ==> Trim(p[k]) == Trim(q[k])
    ensures PieceIndices(p) == PieceIndices(q)
  {
  }

  lemma PieceIndicesSingle(d: string)
    requires IsDigits(d)
    ensures PieceIndices([d]) == [DigitsValue(d) - 1]
  {
    DigitsTrimmed(d);
  }

  /**
   * `indices.filter(i => i >= 0 && i < allAdNetworks.length).map(i => allAdNetworks[i])`.
   */
  function SelectByIndex(catalog: seq<string>, indices: seq<int>): (r: seq<string>)
    ensures |r| <= |indices|
    ensures forall k :: 0 <= k < |r| ==> r[k] in catalog
  {
    if indices == [] then []
    else
      var i := indices[0];
      (if 0 <= i < |catalog| then [catalog[i]] else []) + SelectByIndex(catalog, indices[1..])
  }

  /** Index selection works index by index: input order and duplicates are kept. */
  lemma {:induction false} SelectByIndexAppend(catalog: seq<string>, a: seq<int>, b: seq<int>)
    ensures SelectByIndex(catalog, a + b) == SelectByIndex(catalog, a) + SelectByIndex(catalog, b)
  {
    if a == [] {
      assert a + b == b;
    } else {
      assert (a + b)[0] == a[0];
      assert (a + b)[1..] == a[1..] + b;
      SelectByIndexAppend(catalog, a[1..], b);
    }
  }

  /** One index selects its catalog entry when in range and nothing otherwise. */
  lemma SelectByIndexSingle(catalog: seq<string>, i: int)
    ensures SelectByIndex(catalog, [i]) == if 0 <= i < |catalog| then [catalog[i]] else []
  {
    assert [i][1..] == [];
  }

  /** Every in-range index contributes exactly its own entry. */
  lemma {:induction false} SelectByIndexInRange(catalog: seq<string>, indices: seq<int>)
    requires forall k :: 0 <= k < |indices| ==> 0 <= indices[k] < |catalog|
    ensures |SelectByIndex(catalog, indices)| == |indices|
    ensures forall k :: 0 <= k < |indices| ==> SelectByIndex(catalog, indices)[k] == catalog[indices[k]]
  {
    if indices != [] {
      SelectByIndexInRange(catalog, indices[1..]);
    }
  }

  // ---------------------------------------------------------------------
  // Names
  // ---------------------------------------------------------------------

  /** `selection.split(',').map(s => s.trim().toLowerCase())`. */
  function NameTokens(selection: string): (r: seq<string>)
    ensures |r| == |Split(selection, ',')|
  {
    Tokens(Split(selection, ','))
  }

  /** Each piece trimmed and lower-cased. */
  function Tokens(pieces: seq<string>): (r: seq<string>)
    ensures |r| == |pieces|
  {
    seq(|pieces|, k requires 0 <= k < |pieces| => ToLower(Trim(pieces[k])))
  }

  lemma NameTokensSingle(s: string)
    requires ',' !in s
    ensures NameTokens(s) == [ToLower(Trim(s))]
  {
    SplitNoSep(s, ',');
  }

  /** `allAdNetworks.filter(network => names.includes(network.toLowerCase()))`. */
  function SelectByName(catalog: seq<string>, names: seq<string>): (r: seq<string>)
    ensures |r| <= |catalog|
    ensures forall n :: n in r ==> n in catalog && ToLower(n) in names
  {
    if catalog == [] then []
    else
      var n := catalog[0];
      (if ToLower(n) in names then [n] else []) + SelectByName(catalog[1..], names)
  }

  /** A catalog entry is selected by name iff its lower-cased name was given. */
  lemma {:induction false} SelectByNameMembership(catalog: seq<string>, names: seq<string>, n: string)
    ensures n in SelectByName(catalog, names) <==> n in catalog && ToLower(n) in names
  {
    if catalog != [] {
      SelectByNameMembership(catalog[1..], names, n);
      assert n in catalog <==> n == catalog[0] || n in catalog[1..];
    }
  }

  /** Name selection keeps the catalog order: it is a subsequence of the catalog. */
  lemma {:induction false} SelectByNameOrder(catalog: seq<string>, names: seq<string>)
    ensures IsSubsequence(SelectByName(catalog, names), catalog)
  {
    if catalog != [] {
      SelectByNameOrder(catalog[1..], names);
      var rest := SelectByName(catalog[1..], names);
      if ToLower(catalog[0]) in names {
        var r := [catalog[0]] + rest;
        assert SelectByName(catalog, names) == r;
        assert r[0] == catalog[0] && r[1..] == rest;
        assert IsSubsequence(r, catalog);
      } else {
        assert SelectByName(catalog, names) == [] + rest == rest;
        SubsequenceOfTail(rest, catalog);
      }
    }
  }

  /** Name selection from a catalog without duplicates has no duplicates. */
  lemma {:induction false} SelectByNameDistinct(catalog: seq<string>, names: seq<string>)
    requires Distinct(catalog)
    ensures Distinct(SelectByName(catalog, names))
  {
    if catalog != [] {
      SelectByNameDistinct(catalog[1..], names);
      var rest := SelectByName(catalog[1..], names);
      assert catalog[0] !in catalog[1..];
      assert catalog[0] !in rest;
    }
  }

  /** Name selection depends only on the set of names, not on their order or repetition. */
  lemma {:induction false} SelectByNameSetOnly(catalog: seq<string>, names: seq<string>, names': seq<string>)
    requires forall n :: n in names <==> n in names'
    ensures SelectByName(catalog, names) == SelectByName(catalog, names')
  {
    if catalog != [] {
      SelectByNameSetOnly(catalog[1..], names, names');
    }
  }

  /** When no lower-cased catalog name is among the tokens, nothing is selected. */
  lemma {:induction false} SelectByNameNone(catalog: seq<string>, names: seq<string>)
    requires forall i :: 0 <= i < |catalog| ==> ToLower(catalog[i]) !in names
    ensures SelectByName(catalog, names) == []
  {
    if catalog != [] {
      SelectByNameNone(catalog[1..], names);
    }
  }

  /** `s` is `t` with some entries left out, the rest in the same order. */
  predicate IsSubsequence(s: seq<string>, t: seq<string>)
    decreases |t|
  {
    s == [] || (t != [] && (if s[0] == t[0] then IsSubsequence(s[1..], t[1..]) else IsSubsequence(s, t[1..])))
  }

  lemma {:induction false} SubsequenceOfTail(s: seq<string>, t: seq<string>)
    requires t != [] && IsSubsequence(s, t[1..])
    ensures IsSubsequence(s, t)
    decreases |t|, 0
  {
    if s != [] && s[0] == t[0] {
      SubsequenceDropHead(s, t[1..]);
    }
  }

  lemma {:induction false} SubsequenceDropHead(s: seq<string>, u: seq<string>)
    requires s != [] && IsSubsequence(s, u)
    ensures IsSubsequence(s[1..], u)
    decreases |u|, 1
  {
    if s[0] == u[0] {
      if s[1..] != [] {
        SubsequenceOfTail(s[1..], u);
      }
    } else {
      SubsequenceDropHead(s, u[1..]);
      if s[1..] != [] {
        SubsequenceOfTail(s[1..], u);
      }
    }
  }

  // ---------------------------------------------------------------------
  // The selection
  // ---------------------------------------------------------------------

  /**
   * The networks a selection string picks from `catalog`: `all` in any
   * letter case (not trimmed), else a comma-separated list of 1-based
   * numbers when the trimmed input matches `^\d+(,\d+)*$`, else a
   * comma-separated list of names.
   */
  function Select(catalog: seq<string>, selection: string): (r: seq<string>)
    ensures forall k :: 0 <= k < |r| ==> r[k] in catalog
  {
    if ToLower(selection) == "all" then catalog
    else if IsNumberList(Trim(selection)) then SelectByIndex(catalog, PieceIndices(Split(selection, ',')))
    else SelectByName(catalog, NameTokens(selection))
  }

  /** `all` in any letter case selects the whole catalog in order. */
  lemma SelectAll(catalog: seq<string>, selection: string)
    requires ToLower(selection) == "all"
    ensures Select(catalog, selection) == catalog
  {
  }

  /** A proof step: unfolds the number-list branch of `Select`. */
  lemma SelectNumberBranch(catalog: seq<string>, s: string)
    requires ToLower(s) != "all" && IsNumberList(Trim(s))
    ensures Select(catalog, s) == SelectByIndex(catalog, PieceIndices(Split(s, ',')))
  {
  }

  /** A proof step: unfolds the name-list branch of `Select`. */
  lemma SelectNameBranch(catalog: seq<string>, s: string)
    requires ToLower(s) != "all" && !IsNumberList(Trim(s))
    ensures Select(catalog, s) == SelectByName(catalog, NameTokens(s))
  {
  }

  lemma NotAllWithDigit(s: string, i: nat)
    requires i < |s| && IsDigit(s[i])
    ensures ToLower(s) != "all"
  {
    assert ToLower(s)[i] == s[i];
  }

  /** A number list is free of white space at its ends and is not `all`. */
  lemma NumberListTrimmed(a: string)
    requires IsNumberList(a)
    ensures a != [] && Trim(a) == a
    ensures IsDigit(a[0]) && IsDigit(a[|a| - 1])
    ensures ToLower(a) != "all"
  {
    var p := Split(a, ',');
    assert IsDigits(p[0]) && IsDigits(p[|p| - 1]);
    JoinSplit(a, ',');
    JoinEnds(p, ',');
    TrimUnpadded(a);
    NotAllWithDigit(a, 0);
  }

  /** The first and last characters of a join of pieces with non-empty ends. */
  lemma JoinEnds(p: seq<string>, sep: char)
    requires |p| >= 1 && p[0] != [] && p[|p| - 1] != []
    ensures var j := Join(p, sep); j != [] && j[0] == p[0][0] && j[|j| - 1] == p[|p| - 1][|p[|p| - 1]| - 1]
  {
    JoinLast(p, sep);
  }

  lemma {:induction false} JoinLast(p: seq<string>, sep: char)
    requires |p| >= 1 && p[|p| - 1] != []
    ensures var j := Join(p, sep); j != [] && j[|j| - 1] == p[|p| - 1][|p[|p| - 1]| - 1]
  {
    if |p| > 1 {
      assert p[1..][|p[1..]| - 1] == p[|p| - 1];
      JoinLast(p[1..], sep);
    }
  }

  /** A number list selects by the numbers of its pieces. */
  lemma SelectNumberList(catalog: seq<string>, a: string)
    requires IsNumberList(a)
    ensures Select(catalog, a) == SelectByIndex(catalog, PieceIndices(Split(a, ',')))
  {
    NumberListTrimmed(a);
  }

  lemma DigitsNumberList(d: string)
    requires IsDigits(d) && ',' !in d
    ensures IsNumberList(d)
  {
    SplitNoSep(d, ',');
  }

  lemma SelectNumberIndex(catalog: seq<string>, d: string)
    requires IsDigits(d) && ',' !in d
    ensures Select(catalog, d) == SelectByIndex(catalog, [DigitsValue(d) - 1])
  {
    SplitNoSep(d, ',');
    DigitsNumberList(d);
    NumberListTrimmed(d);
    SelectNumberBranch(catalog, d);
    PieceIndicesSingle(d);
  }

  /**
   * A single number picks the entry it numbers from 1 when it is in range,
   * and nothing otherwise.
   */
  lemma SelectNumber(catalog: seq<string>, d: string)
    requires IsDigits(d) && ',' !in d
    ensures Select(catalog, d) == if 1 <= DigitsValue(d) <= |catalog| then [catalog[DigitsValue(d) - 1]] else []
  {
    var v := DigitsValue(d) - 1;
    SelectNumberIndex(catalog, d);
    SelectByIndexSingle(catalog, v);
  }

  lemma NumberListConcat(a: string, b: string)
    requires IsNumberList(a) && IsNumberList(b)
    ensures Split(a + "," + b, ',') == Split(a, ',') + Split(b, ',')
    ensures IsNumberList(a + "," + b)
  {
    SplitConcat(a, b, ',');
  }

  /**
   * Number lists select piece by piece: the input order and duplicates are
   * kept.
   */
  lemma SelectNumberLists(catalog: seq<string>, a: string, b: string)
    requires IsNumberList(a) && IsNumberList(b)
    ensures IsNumberList(a + "," + b)
    ensures Select(catalog, a + "," + b) == Select(catalog, a) + Select(catalog, b)
  {
    NumberListConcat(a, b);
    SelectNumberList(catalog, a);
    SelectNumberList(catalog, b);
    SelectNumberList(catalog, a + "," + b);
    var p, q := Split(a, ','), Split(b, ',');
    PieceIndicesAppend(p, q);
    SelectByIndexAppend(catalog, PieceIndices(p), PieceIndices(q));
  }

  /**
   * White space around a number list is ignored, as is white space around
   * each number at the ends of the list.
   */
  lemma SelectNumbersPadded(catalog: seq<string>, l: string, a: string, r: string)
    requires AllWhitespace(l) && AllWhitespace(r) && IsNumberList(a)
    ensures Select(catalog, l + a + r) == Select(catalog, a)
  {
    var s := l + a + r;
    NumberListTrimmed(a);
    PaddedNumberNotAll(l, a, r);
    PaddedNumberTrim(l, a, r);
    SelectNumberBranch(catalog, s);
    SelectNumberList(catalog, a);
    PaddedPieceIndices(l, a, r);
  }

  lemma PaddedNumberNotAll(l: string, a: string, r: string)
    requires a != [] && IsDigit(a[0])
    ensures ToLower(l + a + r) != "all"
  {
    var s := l + a + r;
    assert s[|l|] == a[0];
    NotAllWithDigit(s, |l|);
  }

  lemma PaddedNumberTrim(l: string, a: string, r: string)
    requires AllWhitespace(l) && AllWhitespace(r) && IsNumberList(a)
    ensures Trim(l + a + r) == a
  {
    NumberListTrimmed(a);
    TrimPadding(l, a, r);
  }

  lemma PaddedPieceIndices(l: string, a: string, r: string)
    requires AllWhitespace(l) && AllWhitespace(r)
    ensures PieceIndices(Split(l + a + r, ',')) == PieceIndices(Split(a, ','))
  {
    SplitPadded(l, a, r, ',');
    PieceIndicesTrimmed(Split(l + a + r, ','), Split(a, ','));
  }

  /**
   * Any other input selects, in catalog order and without duplicates,
   * exactly the entries whose lower-cased name is a trimmed, lower-cased
   * comma token.
   */
  lemma SelectNames(catalog: seq<string>, selection: string, n: string)
    requires ToLower(selection) != "all" && !IsNumberList(Trim(selection))
    requires Distinct(catalog)
    ensures n in Select(catalog, selection) <==> n in catalog && ToLower(n) in NameTokens(selection)
    ensures IsSubsequence(Select(catalog, selection), catalog)
    ensures Distinct(Select(catalog, selection))
  {
    SelectByNameMembership(catalog, NameTokens(selection), n);
    SelectByNameOrder(catalog, NameTokens(selection));
    SelectByNameDistinct(catalog, NameTokens(selection));
  }

  /**
   * `all` with white space around it is not trimmed before the comparison,
   * so it is read as a network name and selects nothing.
   */
  lemma SelectPaddedAll(catalog: seq<string>, l: string, r: string)
    requires AllWhitespace(l) && AllWhitespace(r) && l + r != []
    requires forall i :: 0 <= i < |catalog| ==> ToLower(catalog[i]) != "all"
    ensures Select(catalog, l + "all" + r) == []
  {
    PaddedAllBranch(catalog, l, r);
    PaddedAllTokens(l, r);
    NoEntryNamedAll(catalog);
  }

  lemma PaddedAllBranch(catalog: seq<string>, l: string, r: string)
    requires AllWhitespace(l) && AllWhitespace(r) && l + r != []
    ensures Select(catalog, l + "all" + r) == SelectByName(catalog, NameTokens(l + "all" + r))
  {
    AllTrimmed();
    AllNotNumberList();
    PaddedNotAll(l, "all", r);
    PaddedNotNumberList(l, "all", r);
    SelectNameBranch(catalog, l + "all" + r);
  }

  lemma PaddedAllTokens(l: string, r: string)
    requires AllWhitespace(l) && AllWhitespace(r)
    ensures NameTokens(l + "all" + r) == ["all"]
  {
    AllTrimmed();
    AllLower();
    PaddedWordTokens(l, "all", r);
  }

  lemma NoEntryNamedAll(catalog: seq<string>)
    requires forall i :: 0 <= i < |catalog| ==> ToLower(catalog[i]) != "all"
    ensures SelectByName(catalog, ["all"]) == []
  {
    SelectByNameNone(catalog, ["all"]);
  }

  lemma AllTrimmed()
    ensures Trim("all") == "all"
  {
    TrimUnpadded("all");
  }

  lemma AllLower()
    ensures ToLower("all") == "all"
  {
  }

  lemma AllNotNumberList()
    ensures !IsNumberList("all")
  {
    SplitNoSep("all", ',');
    assert !IsDigits(Split("all", ',')[0]);
  }

  lemma PaddedNotAll(l: string, w: string, r: string)
    requires l + r != [] && |w| == 3
    ensures ToLower(l + w + r) != "all"
  {
    var s := l + w + r;
    assert |ToLower(s)| != 3;
  }

  lemma PaddedNotNumberList(l: string, w: string, r: string)
    requires AllWhitespace(l) && AllWhitespace(r) && !IsNumberList(w) && Trim(w) == w
    ensures !IsNumberList(Trim(l + w + r))
  {
    TrimPadding(l, w, r);
  }

  lemma PaddedWordTokens(l: string, w: string, r: string)
    requires AllWhitespace(l) && AllWhitespace(r) && Trim(w) == w && ToLower(w) == w && ',' !in w
    ensures NameTokens(l + w + r) == [w]
  {
    NotInWhitespace(l, ',');
    NotInWhitespace(r, ',');
    var s := l + w + r;
    assert ',' !in s;
    NameTokensSingle(s);
    TrimPadding(l, w, r);
  }

  /**
   * White space after a comma takes a list out of the number branch: the
   * pieces become name tokens, and with no network named by a number,
   * `1, 3` selects nothing.
   */
  lemma SelectSpacedNumbers(catalog: seq<string>, a: string, m: string, b: string)
    requires IsDigits(a) && IsDigits(b) && m != [] && AllWhitespace(m)
    requires forall i :: 0 <= i < |catalog| ==> !IsDigits(ToLower(catalog[i]))
    ensures Select(catalog, a + "," + m + b) == []
  {
    var s := a + "," + m + b;
    SpacedNotAll(a, m, b);
    SpacedNotNumberList(a, m, b);
    SelectNameBranch(catalog, s);
    SpacedTokens(a, m, b);
    SelectByNameNone(catalog, [a, b]);
  }

  lemma SpacedPieces(a: string, m: string, b: string)
    requires IsDigits(a) && IsDigits(b) && AllWhitespace(m)
    ensures Split(a + "," + m + b, ',') == [a, m + b]
  {
    NotInWhitespace(m, ',');
    assert ',' !in a && ',' !in b;
    assert ',' !in m + b;
    assert a + "," + m + b == a + [','] + (m + b);
    SplitConcat(a, m + b, ',');
    SplitNoSep(a, ',');
    SplitNoSep(m + b, ',');
  }

  lemma SpacedNotAll(a: string, m: string, b: string)
    requires IsDigits(a)
    ensures ToLower(a + "," + m + b) != "all"
  {
    NotAllWithDigit(a + "," + m + b, 0);
  }

  lemma SpacedNotNumberList(a: string, m: string, b: string)
    requires IsDigits(a) && IsDigits(b) && m != [] && AllWhitespace(m)
    ensures !IsNumberList(Trim(a + "," + m + b))
  {
    SpacedTrim(a, m, b);
    SpacedPieces(a, m, b);
    PaddedNotDigits(m, b);
    assert !IsDigits(Split(a + "," + m + b, ',')[1]);
  }

  lemma SpacedTrim(a: string, m: string, b: string)
    requires IsDigits(a) && IsDigits(b)
    ensures Trim(a + "," + m + b) == a + "," + m + b
  {
    var s := a + "," + m + b;
    assert s[0] == a[0] && s[|s| - 1] == b[|b| - 1];
    TrimUnpadded(s);
  }

  lemma PaddedNotDigits(m: string, b: string)
    requires m != [] && AllWhitespace(m)
    ensures !IsDigits(m + b)
  {
    assert (m + b)[0] == m[0];
  }

  lemma SpacedTokens(a: string, m: string, b: string)
    requires IsDigits(a) && IsDigits(b) && AllWhitespace(m)
    ensures NameTokens(a + "," + m + b) == [a, b]
  {
    SpacedPieces(a, m, b);
    NameTokensPair(a + "," + m + b, a, m + b);
    DigitsToken(a);
    PaddedDigitsToken(m, b);
  }

  lemma NameTokensPair(s: string, x: string, y: string)
    requires Split(s, ',') == [x, y]
    ensures NameTokens(s) == [ToLower(Trim(x)), ToLower(Trim(y))]
  {
    TokensPair(x, y);
  }

  lemma TokensPair(x: string, y: string)
    ensures Tokens([x, y]) == [ToLower(Trim(x)), ToLower(Trim(y))]
  {
    var t := Tokens([x, y]);
    assert t[0] == ToLower(Trim(x));
    assert t[1] == ToLower(Trim(y));
  }

  lemma DigitsToken(d: string)
    requires IsDigits(d)
    ensures ToLower(Trim(d)) == d
  {
    DigitsTrimmed(d);
    DigitsLower(d);
  }

  lemma PaddedDigitsToken(m: string, d: string)
    requires AllWhitespace(m) && IsDigits(d)
    ensures ToLower(Trim(m + d)) == d
  {
    assert m + d + [] == m + d;
    TrimPadding(m, d, []);
    DigitsToken(d);
  }

  /** With the script's catalog: numbers with whitespace after a comma, as in `1, 3`, select nothing. */
  lemma CatalogSpacedNumbers(a: string, m: string, b: string)
    requires IsDigits(a) && IsDigits(b) && m != [] && AllWhitespace(m)
    ensures Select(Catalog, a + "," + m + b) == []
  {
    CatalogNamesAreWords();
    SelectSpacedNumbers(Catalog, a, m, b);
  }

  /** With the script's catalog: `all` with whitespace around it, as in ` all`, selects nothing. */
  lemma CatalogPaddedAll(l: string, r: string)
    requires AllWhitespace(l) && AllWhitespace(r) && l + r != []
    ensures Select(Catalog, l + "all" + r) == []
  {
    CatalogNamesAreWords();
    SelectPaddedAll(Catalog, l, r);
  }

  /** With the script's catalog, name selection has no duplicates. */
  lemma CatalogSelectNames(selection: string, n: string)
    requires ToLower(selection) != "all" && !IsNumberList(Trim(selection))
    ensures n in Select(Catalog, selection) <==> n in Catalog && n in NameTokens(selection)
    ensures IsSubsequence(Select(Catalog, selection), Catalog)
    ensures Distinct(Select(Catalog, selection))
  {
    CatalogDistinct();
    CatalogLowerCase();
    SelectNames(Catalog, selection, n);
  }
}
