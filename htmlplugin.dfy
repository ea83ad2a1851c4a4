/**
 * The bundler plugin that emits the page: it reads the network's template,
 * points every `<script … src=…></script>` tag at the bundle, keeps the
 * tags that load `mraid.js`, and registers the result as an asset.
 */
module HtmlPlugin {
  import opened Wrappers
  import opened Text
  import opened Rewrite

  /** The asset file name used when the options give none. */
  const DefaultFilename := "./src/index.html"

  /** The marker of the tags that are kept. */
  const Mraid := "mraid.js"

  /** The bundle's tag around its name. */
  const TagStart := "<script src=\""
  const TagEnd := "\"></script>"

  /** `<script src="<bundle>"></script>`. */
  function BundleTag(bundle: string): string {
    TagStart + bundle + TagEnd
  }

  /** The tag-rewriting `replace` of the emit hook. */
  function RewriteTags(html: string, bundle: string): string {
    ReplaceAll(ScriptTag, KeepOrReplace(Mraid, BundleTag(bundle)), html)
  }

  /** A page without `<script` is emitted unchanged. */
  lemma NoScriptUnchanged(html: string, bundle: string)
    requires !Contains(html, ScriptOpen)
    ensures RewriteTags(html, bundle) == html
  {
    ReplaceAllNoLead(ScriptTag, KeepOrReplace(Mraid, BundleTag(bundle)), html);
  }

  /**
   * A matched tag whose source contains `mraid.js` is emitted verbatim; the
   * text before it, in which no tag starts, is copied, and the rest is
   * rewritten on its own.
   */
  lemma MraidTagKept(before: string, tag: string, after: string, bundle: string, m: Match)
    requires NoMatchBefore(ScriptTag, before + tag + after, |before|)
    requires MatchAt(ScriptTag, tag + after) == Some(m) && m.len == |tag|
    requires Contains(m.group, Mraid)
    ensures RewriteTags(before + tag + after, bundle) == before + tag + RewriteTags(after, bundle)
  {
    ReplaceAllInContext(ScriptTag, KeepOrReplace(Mraid, BundleTag(bundle)), before, tag, after, m);
  }

  /** Every other matched tag becomes exactly the bundle's tag. */
  lemma OtherTagReplaced(before: string, tag: string, after: string, bundle: string, m: Match)
    requires NoMatchBefore(ScriptTag, before + tag + after, |before|)
    requires MatchAt(ScriptTag, tag + after) == Some(m) && m.len == |tag|
    requires !Contains(m.group, Mraid)
    ensures RewriteTags(before + tag + after, bundle) == before + BundleTag(bundle) + RewriteTags(after, bundle)
  {
    ReplaceAllInContext(ScriptTag, KeepOrReplace(Mraid, BundleTag(bundle)), before, tag, after, m);
  }

  /** A file name that can stand between the quotes of a tag. */
  predicate PlainName(name: string) {
    forall i :: 0 <= i < |name| ==> !IsQuote(name[i]) && !IsLineTerminator(name[i])
  }

  /** The group scan moves over characters that are neither quotes nor line terminators. */
  lemma {:induction false} GroupFromSkip(x: string, a: nat, b: nat)
    requires a <= b <= |x|
    requires forall j :: a <= j < b ==> !IsQuote(x[j]) && !IsLineTerminator(x[j])
    ensures GroupFrom(x, a) == GroupFrom(x, b)
    decreases b - a
  {
    if a < b {
      GroupFromSkip(x, a + 1, b);
    }
  }

  /** The characters of the name inside a tag. */
  lemma NameInside(pre: string, name: string, p: string, q: string)
    requires PlainName(name)
    ensures var x := pre + name + p + q;
      forall j :: |pre| <= j < |pre| + |name| ==> !IsQuote(x[j]) && !IsLineTerminator(x[j])
  {
    var x := pre + name + p + q;
    forall j | |pre| <= j < |pre| + |name|
      ensures !IsQuote(x[j]) && !IsLineTerminator(x[j])
    {
      assert x[j] == name[j - |pre|];
    }
  }

  /** The closing quote and `></script>` right after the name. */
  lemma TagEndInside(pre: string, name: string, z: string)
    ensures var x := pre + name + TagEnd + z;
      var k := |pre| + |name|;
      k + 11 <= |x| && x[k] == '"' && OccursAt(x, ScriptClose, k + 1)
  {
    var x := pre + name + TagEnd + z;
    var k := |pre| + |name|;
    assert x[k..k + 11] == TagEnd;
    assert x[k + 1..k + 11] == TagEnd[1..];
  }

  /** The group scan over plain characters up to a quote that closes the tag. */
  lemma GroupAt(x: string, a: nat, n: nat)
    requires a + n + 11 <= |x| && x[a + n] == '"' && OccursAt(x, ScriptClose, a + n + 1)
    requires forall j :: a <= j < a + n ==> !IsQuote(x[j]) && !IsLineTerminator(x[j])
    ensures GroupFrom(x, a) == Some((a + n, a + n + 11))
  {
    GroupFromSkip(x, a, a + n);
  }

  /** The group of a quoted plain name closes at its closing quote. */
  lemma GroupOfName(pre: string, name: string, z: string)
    requires PlainName(name)
    ensures GroupFrom(pre + name + TagEnd + z, |pre|) == Some((|pre| + |name|, |pre| + |name| + 11))
  {
    NameInside(pre, name, TagEnd, z);
    TagEndInside(pre, name, z);
    GroupAt(pre + name + TagEnd + z, |pre|, |name|);
  }

  /** The source scan of the bundle's tag finds its `src` and its name. */
  lemma SrcOfBundleTag(bundle: string, z: string)
    requires PlainName(bundle)
    ensures SrcFrom(BundleTag(bundle) + z, 7) == Some(Match(|BundleTag(bundle)|, bundle))
  {
    var x := BundleTag(bundle) + z;
    GroupOfName(TagStart, bundle, z);
    assert x[..13] == TagStart;
    assert x[8..12] == SrcAttr;
    assert x[12] == '"';
    assert x[13..13 + |bundle|] == bundle;
    assert SrcFrom(x, 8) == Some(Match(24 + |bundle|, bundle));
    assert x[7] == ' ';
  }

  /** The bundle's tag is one complete match whose group is the bundle's name, whatever follows it. */
  lemma BundleTagMatches(bundle: string, z: string)
    requires PlainName(bundle)
    ensures MatchAt(ScriptTag, BundleTag(bundle) + z) == Some(Match(|BundleTag(bundle)|, bundle))
  {
    SrcOfBundleTag(bundle, z);
    assert (BundleTag(bundle) + z)[..7] == ScriptOpen;
  }

  /**
   * A rewritten tag rewrites to itself: a page that is the bundle's tag
   * followed by anything is the tag followed by the rewrite of the rest.
   */
  lemma BundleTagStable(bundle: string, z: string)
    requires PlainName(bundle)
    ensures RewriteTags(BundleTag(bundle) + z, bundle) == BundleTag(bundle) + RewriteTags(z, bundle)
  {
    BundleTagMatches(bundle, z);
    ReplaceAllMatchFirst(ScriptTag, KeepOrReplace(Mraid, BundleTag(bundle)), BundleTag(bundle), z,
                         Match(|BundleTag(bundle)|, bundle));
  }

  /** The emitted asset: its source text and its reported size. */
  datatype Asset = Asset(source: string, size: nat)

  /** The part of the bundler's compilation the plugin touches. */
  class Compilation {
    var errors: seq<string>
    var assets: map<string, Asset>
    /** `compilation.outputOptions.filename`, the bundle's file name. */
    const outputFilename: string

    constructor (outputFilename: string)
      ensures this.outputFilename == outputFilename && errors == [] && assets == map[]
    {
      this.outputFilename := outputFilename;
      errors := [];
      assets := map[];
    }
  }

  class CustomHtmlPlugin {
    const templatePath: string
    const filename: string

    /** `options.filename || './src/index.html'`: a missing or empty name falls back to the default. */
    constructor (template: string, filename: Option<string>)
      ensures templatePath == template
      ensures this.filename == (if filename.Some? && filename.value != "" then filename.value else DefaultFilename)
    {
      templatePath := template;
      this.filename := if filename.Some? && filename.value != "" then filename.value else DefaultFilename;
    }

    /**
     * The emit hook. `template` is what reading the template gave: its text,
     * or the message of the error. Returns how many times the hook's
     * callback was invoked.
     */
    method Emit(compilation: Compilation, template: Result<string, string>) returns (callbacks: nat)
      modifies compilation
      ensures callbacks == 1
      ensures template.Failure? ==>
        && compilation.errors == old(compilation.errors) + ["CustomHtmlWebpackPlugin: " + template.error]
        && compilation.assets == old(compilation.assets)
      ensures template.Success? ==>
        var html := RewriteTags(template.value, compilation.outputFilename);
        && compilation.errors == old(compilation.errors)
        && compilation.assets == old(compilation.assets)[filename := Asset(html, |html|)]
    {
      if template.Failure? {
        compilation.errors := compilation.errors + ["CustomHtmlWebpackPlugin: " + template.error];
        callbacks := 1;
        return;
      }
      var html := RewriteTags(template.value, compilation.outputFilename);
      compilation.assets := compilation.assets[filename := Asset(html, |html|)];
      callbacks := 1;
    }
  }
}
