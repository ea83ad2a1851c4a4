/**
 * Store-link injection of the build script: the two global regular
 * expression replaces that rewrite the quoted value on the
 * `var url = '…'; // IOS` and `var android = '…'; // ANDROID` lines of a
 * built page, with the links of the network (falling back to the default
 * links).
 */
module StoreLinks {
  import opened Text
  import opened Wrappers
  import opened Rewrite

  datatype Links = Links(ios: string, android: string)

  /** The store-link table: only a `default` entry is configured. */
  const StoreTable: map<string, Links> := map["default" := Links("https://google.com", "https://google.com")]

  /** `storeLinks[network] || storeLinks.default`. */
  function LinksFor(network: string): (l: Links)
    ensures network in StoreTable ==> l == StoreTable[network]
    ensures network !in StoreTable ==> l == StoreTable["default"]
  {
    if network in StoreTable then StoreTable[network] else StoreTable["default"]
  }

  /** Every network, the catalog's included, gets the default links. */
  lemma LinksForDefault(network: string)
    ensures LinksFor(network) == Links("https://google.com", "https://google.com")
  {
  }

  /** The marker line `var <variable> = '<link>'; // <tag>` written by the injection. */
  function LinkLine(variable: string, link: string, tag: string): string {
    LinkHead(variable) + link + LineEnd(tag)
  }

  const IosPattern := StoreLinkAssign("url", "IOS")
  const AndroidPattern := StoreLinkAssign("android", "ANDROID")

  /** One pass: `html.replace(/var V = '.*?';\s*\/\/\s*TAG/g, "var V = 'LINK'; // TAG")`. */
  function InjectPass(variable: string, tag: string, link: string, html: string): string {
    ReplaceAll(StoreLinkAssign(variable, tag), Fixed(LinkLine(variable, link, tag)), html)
  }

  /** `injectStoreLinks(html, network)` with the network's links resolved. */
  function Inject(links: Links, html: string): string {
    InjectPass("android", "ANDROID", links.android, InjectPass("url", "IOS", links.ios, html))
  }

  /** `injectStoreLinks(html, network)`. */
  function InjectStoreLinks(html: string, network: string): string {
    Inject(LinksFor(network), html)
  }

  /** A link that can stand inside the quotes of a marker line. */
  predicate PlainLink(link: string) {
    forall i :: 0 <= i < |link| ==> link[i] != '\'' && !IsLineTerminator(link[i])
  }

  /** A page without either assignment head comes back unchanged. */
  lemma InjectNoMarkers(links: Links, html: string)
    requires !Contains(html, LinkHead("url")) && !Contains(html, LinkHead("android"))
    ensures Inject(links, html) == html
  {
    ReplaceAllNoLead(IosPattern, Fixed(LinkLine("url", links.ios, "IOS")), html);
    ReplaceAllNoLead(AndroidPattern, Fixed(LinkLine("android", links.android, "ANDROID")), html);
  }

  lemma NoQuoteNoTail(x: string, a: nat, tag: string)
    requires a < |x| && x[a] != '\''
    ensures LinkTail(x, a, tag).None?
  {
    assert !OccursAt(x, "';", a) by {
      assert a + 2 > |x| || x[a..a + 2][0] != '\'';
    }
  }

  /** The closing `'; // TAG` of a marker line. */
  function LineEnd(tag: string): string {
    "'; // " + tag
  }

  /** The end of a marker line is found right after the closing quote. */
  lemma LineTail(x: string, k: nat, tag: string)
    requires tag != [] && !IsWhitespace(tag[0])
    requires k + 6 + |tag| <= |x| && x[k..k + 6 + |tag|] == LineEnd(tag)
    ensures LinkTail(x, k, tag) == Some(k + 6 + |tag|)
  {
    var t := LineEnd(tag);
    assert x[k] == t[0] && x[k + 1] == t[1];
    assert x[k..k + 2] == "';";
    assert x[k + 2] == t[2] == ' ';
    assert x[k + 3] == t[3] && x[k + 4] == t[4];
    assert x[k + 3..k + 5] == "//";
    assert x[k + 5] == t[5] == ' ';
    assert x[k + 6] == t[6] == tag[0];
    assert SkipWs(x, k + 2) == k + 3;
    assert SkipWs(x, k + 5) == k + 6;
    assert x[k + 6..k + 6 + |tag|] == t[6..];
  }

  /** The characters of the link inside a line. */
  lemma LinkInside(pre: string, link: string, p: string, q: string)
    requires PlainLink(link)
    ensures var x := pre + link + p + q;
      forall j :: |pre| <= j < |pre| + |link| ==> x[j] != '\'' && !IsLineTerminator(x[j])
  {
    var x := pre + link + p + q;
    forall j | |pre| <= j < |pre| + |link|
      ensures x[j] != '\'' && !IsLineTerminator(x[j])
    {
      assert x[j] == link[j - |pre|];
    }
  }

  /** The closing part of a line inside the text. */
  lemma LineEndInside(pre: string, link: string, tag: string, z: string)
    ensures var x := pre + link + LineEnd(tag) + z;
      |pre| + |link| + 6 + |tag| <= |x| && x[|pre| + |link|..|pre| + |link| + 6 + |tag|] == LineEnd(tag)
  {
    var x := pre + link + LineEnd(tag) + z;
    assert x == (pre + link) + LineEnd(tag) + z;
  }

  /** The scan over plain characters up to the closing part of a line stops at its end. */
  lemma ScanToLineEnd(x: string, a: nat, n: nat, tag: string)
    requires tag != [] && !IsWhitespace(tag[0])
    requires a + n + 6 + |tag| <= |x| && x[a + n..a + n + 6 + |tag|] == LineEnd(tag)
    requires forall j :: a <= j < a + n ==> x[j] != '\'' && !IsLineTerminator(x[j])
    ensures LinkScan(x, a, tag) == Some(a + n + 6 + |tag|)
  {
    LineTail(x, a + n, tag);
    LinkScanSkipTo(x, a, a + n, tag, a + n + 6 + |tag|);
  }

  /**
   * The lazy scan moves over characters that are neither a quote nor a line
   * terminator and ends where the tail first matches.
   */
  lemma {:induction false} LinkScanSkipTo(x: string, a: nat, b: nat, tag: string, e: nat)
    requires a <= b <= |x| && LinkTail(x, b, tag) == Some(e)
    requires forall j :: a <= j < b ==> x[j] != '\'' && !IsLineTerminator(x[j])
    ensures LinkScan(x, a, tag) == Some(e)
    decreases b - a
  {
    if a < b {
      NoQuoteNoTail(x, a, tag);
      LinkScanSkipTo(x, a + 1, b, tag, e);
    }
  }

  /** The scan over a plain link followed by the closing part of a line stops at its end. */
  lemma ScanLine(pre: string, link: string, tag: string, z: string)
    requires PlainLink(link) && tag != [] && !IsWhitespace(tag[0])
    ensures LinkScan(pre + link + LineEnd(tag) + z, |pre|, tag) == Some(|pre| + |link| + 6 + |tag|)
  {
    LinkInside(pre, link, LineEnd(tag), z);
    LineEndInside(pre, link, tag, z);
    ScanToLineEnd(pre + link + LineEnd(tag) + z, |pre|, |link|, tag);
  }

  /** The lazy scan of a marker line with a plain link stops at the end of the line. */
  lemma LineScan(variable: string, link: string, tag: string, z: string)
    requires PlainLink(link) && tag != [] && !IsWhitespace(tag[0])
    ensures LinkScan(LinkLine(variable, link, tag) + z, |LinkHead(variable)|, tag) == Some(|LinkLine(variable, link, tag)|)
  {
    ScanLine(LinkHead(variable), link, tag, z);
  }

  /** A marker line starts with its assignment head. */
  lemma LineStartsWithHead(variable: string, link: string, tag: string, z: string)
    ensures StartsWith(LinkLine(variable, link, tag) + z, LinkHead(variable))
  {
    var x := LinkLine(variable, link, tag) + z;
    assert x == LinkHead(variable) + (link + LineEnd(tag) + z);
    assert x[..|LinkHead(variable)|] == LinkHead(variable);
  }

  /**
   * A marker line with a plain link is one complete match of its
   * expression, whatever follows it.
   */
  lemma LineMatches(variable: string, link: string, tag: string, z: string)
    requires PlainLink(link) && tag != [] && !IsWhitespace(tag[0])
    ensures MatchAt(StoreLinkAssign(variable, tag), LinkLine(variable, link, tag) + z)
      == Some(Match(|LinkLine(variable, link, tag)|, []))
  {
    LineStartsWithHead(variable, link, tag, z);
    LineScan(variable, link, tag, z);
    StoreLinkMatch(variable, tag, LinkLine(variable, link, tag) + z, |LinkLine(variable, link, tag)|);
  }

  /**
   * A pass rewrites a marker line at the front to the line with its own
   * link and carries on after it.
   */
  lemma PassRewritesLine(variable: string, tag: string, link: string, previous: string, z: string)
    requires PlainLink(previous) && tag != [] && !IsWhitespace(tag[0])
    ensures InjectPass(variable, tag, link, LinkLine(variable, previous, tag) + z)
      == LinkLine(variable, link, tag) + InjectPass(variable, tag, link, z)
  {
    var line := LinkLine(variable, previous, tag);
    LineMatches(variable, previous, tag, z);
    ReplaceAllMatchFirst(StoreLinkAssign(variable, tag), Fixed(LinkLine(variable, link, tag)), line, z, Match(|line|, []));
  }
}
