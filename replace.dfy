/**
 * The reference rewriter of `lib/build/athena_mate/athena_replace.js`.
 *
 * The two scanning regular expressions are not modelled: a `Document` carries the text
 * together with the ordered list of segments each scanner splits it into (`Scanned`
 * ties both lists back to the text). Each rewrite is then the source's per-match
 * callback mapped over that list.
 */
module AthenaReplace {
  import opened Wrappers
  import opened Text
  import opened Config

  // ---------------------------------------------------------------------------
  // stringQuote

  /** What `stringQuote` returns: the untrimmed input, the unquoted text and the quote. */
  datatype QuoteInfo = QuoteInfo(origin: string, rest: string, quote: string)

  /** The quote characters tried when the caller passes none, in order. */
  const DefaultQuotes: string := "'\""

  /** Index of the first character of `quotes` that both starts and ends `t`, or `|quotes|`. */
  function FirstEnclosing(t: string, quotes: string): (k: nat)
    requires t != []
    ensures k <= |quotes|
    ensures k < |quotes| ==> t[0] == quotes[k] && t[|t| - 1] == quotes[k]
    ensures forall j :: 0 <= j < k ==> !(t[0] == quotes[j] && t[|t| - 1] == quotes[j])
  {
    if quotes == [] then 0
    else if t[0] == quotes[0] && t[|t| - 1] == quotes[0] then 0
    else 1 + FirstEnclosing(t, quotes[1..])
  }

  /** The value `stringQuote(str, quotes)` computes; an empty `quotes` stands for the default. */
  function QuoteSpec(str: string, quotes: string): QuoteInfo
  {
    var t := Trim(str);
    var qs := if quotes == [] then DefaultQuotes else quotes;
    if t == [] then QuoteInfo(str, t, [])
    else
      var k := FirstEnclosing(t, qs);
      if k == |qs| then QuoteInfo(str, t, [])
      else QuoteInfo(str, Substring(t, 1, |t| - 1), [qs[k]])
  }

  /** The `for` loop of `stringQuote`: the first quote character that both starts and ends `s`. */
  method FindQuote(s: string, qs: string) returns (i: nat)
    requires s != []
    ensures i == FirstEnclosing(s, qs)
  {
    ghost var k := FirstEnclosing(s, qs);
    var strLen := |s| - 1;
    i := 0;
    while i < |qs|
      invariant i <= k
    {
      var c := qs[i];
      if s[0] == c && s[strLen] == c {
        return;
      }
      i := i + 1;
    }
  }

  /** `stringQuote`: trims, then tries each quote character in order and stops at the first match. */
  method StringQuote(str: string, quotes: string) returns (info: QuoteInfo)
    ensures info == QuoteSpec(str, quotes)
  {
    var s := Trim(str);
    info := QuoteInfo(str, s, []);
    if s != [] {
      var qs := if quotes == [] then DefaultQuotes else quotes;
      var i := FindQuote(s, qs);
      if i < |qs| {
        info := info.(quote := [qs[i]], rest := Substring(s, 1, |s| - 1));
      }
    }
  }

  /** A trimmed value of two or more characters enclosed in one quote loses exactly that quote. */
  lemma StringQuoteStrips(str: string)
    requires var t := Trim(str); |t| >= 2 && t[0] == t[|t| - 1] && t[0] in DefaultQuotes
    ensures var t := Trim(str); QuoteSpec(str, []) == QuoteInfo(str, t[1..|t| - 1], [t[0]])
  {
  }

  /** Any other value is only trimmed and gets no quote; `origin` is always the untrimmed input. */
  lemma StringQuoteKeeps(str: string)
    requires var t := Trim(str); !(t != [] && t[0] == t[|t| - 1] && t[0] in DefaultQuotes)
    ensures QuoteSpec(str, []) == QuoteInfo(str, Trim(str), [])
  {
  }

  /**
   * A value that trims to a lone quote character counts as quoted: `substring(1, 0)` swaps
   * its bounds, so the rest is the quote character itself.
   */
  lemma StringQuoteLoneQuote(str: string)
    requires |Trim(str)| == 1 && Trim(str)[0] in DefaultQuotes
    ensures QuoteSpec(str, []) == QuoteInfo(str, Trim(str), Trim(str))
  {
  }

  // ---------------------------------------------------------------------------
  // The per-target prefix table

  /** `resourcePrefix`: the URL prefix of the current module on each remote machine. */
  datatype ResourcePrefix = ResourcePrefix(qiang: string, jdTest: string, tencent: string)

  /** Errors the rewriter throws: a remote machine missing from `deploy`, or reading the undefined `url`. */
  datatype RewriteError = MissingTarget(name: string) | UndefinedUrl

  /** The CDN prefix rule: `//` + domain + file distribution path + `/app/module/`. */
  function CdnPrefix(t: TargetConf, app: string, moduleName: string): string
  {
    "//" + t.domain + t.fdPath + "/" + app + "/" + moduleName + "/"
  }

  /**
   * The prefix table `replace` builds when both configuration objects are present; reading
   * a remote machine that `deploy` lacks throws, in the order qiang, jdTest, tencent.
   */
  function BuildPrefix(appConf: Option<AppConf>, moduleConf: Option<ModuleConf>): (r: Result<Option<ResourcePrefix>, RewriteError>)
    ensures appConf.None? || moduleConf.None? ==> r == Ok(None)
    ensures appConf.Some? && moduleConf.Some? ==>
      (r.Ok? <==> "qiang" in appConf.value.deploy && "jdTest" in appConf.value.deploy && "tencent" in appConf.value.deploy)
    ensures appConf.Some? && moduleConf.Some? && r.Err? ==>
      r.error == MissingTarget(if "qiang" !in appConf.value.deploy then "qiang"
                               else if "jdTest" !in appConf.value.deploy then "jdTest" else "tencent")
    ensures r.Ok? && r.value.Some? ==>
      var d, app, m := appConf.value.deploy, appConf.value.app, moduleConf.value.moduleName;
      && r.value.value.qiang == "/" + d["qiang"].remotePath + "/" + m + "/"
      && r.value.value.jdTest == CdnPrefix(d["jdTest"], app, m)
      && r.value.value.tencent == CdnPrefix(d["tencent"], app, m)
  {
    if appConf.None? || moduleConf.None? then Ok(None)
    else
      var d := appConf.value.deploy;
      var m := moduleConf.value.moduleName;
      if "qiang" !in d then Err(MissingTarget("qiang"))
      else if "jdTest" !in d then Err(MissingTarget("jdTest"))
      else if "tencent" !in d then Err(MissingTarget("tencent"))
      else Ok(Some(ResourcePrefix(
        "/" + d["qiang"].remotePath + "/" + m + "/",
        CdnPrefix(d["jdTest"], appConf.value.app, m),
        CdnPrefix(d["tencent"], appConf.value.app, m))))
  }

  /** `resourcePrefix[replaceType]` pasted into a string: an unknown key reads as "undefined". */
  function PrefixFor(p: ResourcePrefix, replaceType: string): string
  {
    if replaceType == "qiang" then p.qiang
    else if replaceType == "jdTest" then p.jdTest
    else if replaceType == "tencent" then p.tencent
    else "undefined"
  }

  /** Every prefix of the table ends in `/`; any other replace type gives "undefined". */
  lemma PrefixEndsInSlash(appConf: Option<AppConf>, moduleConf: Option<ModuleConf>, replaceType: string)
    requires BuildPrefix(appConf, moduleConf).Ok? && BuildPrefix(appConf, moduleConf).value.Some?
    ensures var p := PrefixFor(BuildPrefix(appConf, moduleConf).value.value, replaceType);
      if replaceType in {"qiang", "jdTest", "tencent"} then p != [] && p[|p| - 1] == '/' else p == "undefined"
  {
  }

  // ---------------------------------------------------------------------------
  // The `images` trim

  /**
   * `if (imagesIndex) value = value.substr(imagesIndex)`: the value from its first `images` on.
   * The test is true for -1, so a value without `images` shrinks to its last character.
   */
  function TrimAtImages(v: string): (r: string)
    ensures Contains(v, "images") ==> r == v[IndexOf(v, "images")..]
    ensures !Contains(v, "images") ==> r == if v == [] then [] else [v[|v| - 1]]
  {
    var i := IndexOf(v, "images");
    if i != 0 then Substr(v, i) else v
  }

  /** With no `images` in `p`, the first `images` of `p + w` is where `w` starts with it. */
  lemma ImagesAfterPrefix(p: string, w: string)
    requires !Contains(p, "images") && OccursAt(w, "images", 0)
    ensures IndexOf(p + w, "images") == |p|
  {
    var s := p + w;
    assert OccursAt(s, "images", |p|) by { assert s[|p|..|p| + 6] == w[..6]; }
    forall j | 0 <= j < |p| ensures !OccursAt(s, "images", j) {
      if j + 6 <= |p| {
        assert s[j..j + 6] == p[j..j + 6];
        assert !OccursAt(p, "images", j);
      } else {
        assert s[|p|] == w[0] == 'i';
        assert "images"[|p| - j] != 'i';
        assert s[j..j + 6][|p| - j] == s[|p|];
      }
    }
  }

  /**
   * Trimming a prefixed value again gives the same value: when `v` holds `images` and the
   * prefix does not, `prefix + TrimAtImages(v)` trims back to `TrimAtImages(v)`.
   */
  lemma TrimAtImagesIdempotent(prefix: string, v: string)
    requires Contains(v, "images") && !Contains(prefix, "images")
    ensures TrimAtImages(prefix + TrimAtImages(v)) == TrimAtImages(v)
  {
    var w := TrimAtImages(v);
    assert w[..6] == v[IndexOf(v, "images")..IndexOf(v, "images") + 6];
    assert OccursAt(w, "images", 0);
    ImagesAfterPrefix(prefix, w);
    assert (prefix + w)[|prefix|..] == w;
  }

  // ---------------------------------------------------------------------------
  // The attribute rewrites of resource tags

  /** `src` / `data-src`: drop every `"`, trim at `images`, put the target prefix in front. */
  function SrcValue(value: string, prefix: string): (r: string)
    ensures var u := RemoveChar(value, '"');
      r == prefix + (if Contains(u, "images") then u[IndexOf(u, "images")..]
                     else if u == [] then [] else [u[|u| - 1]])
  {
    prefix + TrimAtImages(RemoveChar(value, '"'))
  }

  /** Rewriting an already rewritten `src` value changes nothing. */
  lemma SrcValueIdempotent(value: string, prefix: string)
    requires Contains(RemoveChar(value, '"'), "images")
    requires !Contains(prefix, "images") && '"' !in prefix
    ensures SrcValue(SrcValue(value, prefix), prefix) == SrcValue(value, prefix)
  {
    var u := RemoveChar(value, '"');
    var w := TrimAtImages(u);
    assert '"' !in w;
    assert '"' !in prefix + w;
    assert RemoveChar(prefix + w, '"') == prefix + w;
    TrimAtImagesIdempotent(prefix, u);
  }

  /** One `srcset` item: a bare URL is kept; otherwise the prefix replaces the URL before the descriptor. */
  function SrcsetItem(item: string, prefix: string): string
  {
    var t := Trim(item);
    var p := IndexOf(t, " ");
    if p == -1 then t else prefix + Substr(t, p)
  }

  /** What each item becomes: the trimmed item when it has no space, else prefix + its text from the first space. */
  lemma SrcsetItemShape(item: string, prefix: string)
    ensures var t := Trim(item);
      if !Contains(t, " ") then SrcsetItem(item, prefix) == t
      else var p := IndexOf(t, " ");
        0 < p < |t| - 1 && SrcsetItem(item, prefix) == prefix + [' '] + t[p + 1..]
  {
    var t := Trim(item);
    var p := IndexOf(t, " ");
    if p >= 0 {
      InnerSpace(t, p);
    }
  }

  /** A space inside a trimmed string is neither its first nor its last character. */
  lemma InnerSpace(t: string, p: int)
    requires t != [] ==> !IsSpace(t[0]) && !IsSpace(t[|t| - 1])
    requires OccursAt(t, " ", p)
    ensures 0 < p < |t| - 1 && Substr(t, p) == [' '] + t[p + 1..]
  {
    assert t[p] == t[p..p + 1][0] == ' ';
  }

  /** The `srcset` array: one rewritten entry per item, in order. */
  function SrcsetItems(items: seq<string>, prefix: string): seq<string>
  {
    Map(items, SrcsetItemOf(prefix))
  }

  function SrcsetItemOf(prefix: string): string -> string
  {
    (item: string) => SrcsetItem(item, prefix)
  }

  /** The rewritten `srcset` value: the items joined with ", " inside the original quote. */
  function SrcsetValue(value: string, prefix: string): string
  {
    var info := QuoteSpec(value, []);
    info.quote + Join(SrcsetItems(Split(info.rest, ','), prefix), ", ") + info.quote
  }

  /**
   * The rewritten value keeps one entry per comma-separated item, each rewritten on its
   * own and in order, joined with ", " inside the quote the value had.
   */
  lemma SrcsetKeepsItems(value: string, prefix: string)
    ensures var info := QuoteSpec(value, []);
      var items := Split(info.rest, ',');
      var out := SrcsetItems(items, prefix);
      |out| == |items| && (forall k :: 0 <= k < |items| ==> out[k] == SrcsetItem(items[k], prefix)) &&
      SrcsetValue(value, prefix) == info.quote + Join(out, ", ") + info.quote
  {
  }

  /** The body of the `srcset` branch's `forEach` for one item. */
  method SrcsetEntry(item0: string, prefix: string) returns (item: string)
    ensures item == SrcsetItem(item0, prefix)
  {
    item := Trim(item0);
    var index := IndexOf(item, " ");
    if index != -1 {
      // the source also cuts the URL at `images` here and then never uses it
      item := prefix + Substr(item, index);
    }
  }

  /** One more item adds its rewritten entry at the end. */
  lemma SrcsetItemsSnoc(items: seq<string>, prefix: string, i: nat)
    requires i < |items|
    ensures SrcsetItems(items[..i + 1], prefix) == SrcsetItems(items[..i], prefix) + [SrcsetItem(items[i], prefix)]
  {
    MapSnoc(items, SrcsetItemOf(prefix), i);
  }

  /** The `forEach` of the `srcset` branch: one pushed entry per comma-separated item. */
  method SrcsetEntries(items: seq<string>, prefix: string) returns (srcset: seq<string>)
    ensures srcset == SrcsetItems(items, prefix)
  {
    srcset := [];
    var i := 0;
    while i < |items|
      invariant 0 <= i <= |items|
      invariant srcset == SrcsetItems(items[..i], prefix)
    {
      var entry := SrcsetEntry(items[i], prefix);
      SrcsetItemsSnoc(items, prefix, i);
      srcset := srcset + [entry];
      i := i + 1;
    }
    assert items[..i] == items;
  }

  /** The `srcset` branch of the callback: unquote, split on commas, rewrite the items, join, requote. */
  method RewriteSrcset(value: string, prefix: string) returns (r: string)
    ensures r == SrcsetValue(value, prefix)
  {
    var info := StringQuote(value, []);
    var srcset := SrcsetEntries(Split(info.rest, ','), prefix);
    r := info.quote + Join(srcset, ", ") + info.quote;
  }

  /** A piece of a resource tag as its attribute scanner splits it: plain text, or an attribute lead and its value. */
  datatype TagPiece = TagText(text: string) | AttrValue(lead: string, value: string)

  function PieceText(p: TagPiece): string
  {
    match p
    case TagText(t) => t
    case AttrValue(lead, value) => lead + value
  }

  function TagPiecesText(ps: seq<TagPiece>): string
  {
    if ps == [] then "" else PieceText(ps[0]) + TagPiecesText(ps[1..])
  }

  /** An `object` tag: every `data=` value gets the prefix in front, quotes and all. */
  function ObjectPiece(p: TagPiece, prefix: string): string
  {
    match p
    case TagText(t) => t
    case AttrValue(lead, value) => lead + prefix + value
  }

  /** Any other resource tag: `srcset` leads take the srcset rewrite, the others the `src` rewrite. */
  function SrcPiece(p: TagPiece, prefix: string): string
  {
    match p
    case TagText(t) => t
    case AttrValue(lead, value) =>
      if Contains(lead, "srcset") then lead + SrcsetValue(value, prefix)
      else lead + SrcValue(value, prefix)
  }

  function ObjectTagText(ps: seq<TagPiece>, prefix: string): string
  {
    if ps == [] then "" else ObjectPiece(ps[0], prefix) + ObjectTagText(ps[1..], prefix)
  }

  function SrcTagText(ps: seq<TagPiece>, prefix: string): string
  {
    if ps == [] then "" else SrcPiece(ps[0], prefix) + SrcTagText(ps[1..], prefix)
  }

  /** The tag with each `data` value replaced by the prefix followed by that value. */
  function PrefixData(ps: seq<TagPiece>, prefix: string): (r: seq<TagPiece>)
    ensures |r| == |ps|
    ensures forall k :: 0 <= k < |ps| ==> (ps[k].TagText? ==> r[k] == ps[k])
    ensures forall k :: 0 <= k < |ps| ==> (ps[k].AttrValue? ==> r[k] == AttrValue(ps[k].lead, prefix + ps[k].value))
  {
    if ps == [] then []
    else [if ps[0].TagText? then ps[0] else AttrValue(ps[0].lead, prefix + ps[0].value)] + PrefixData(ps[1..], prefix)
  }

  /** Rewriting an `object` tag prints the same tag with only its `data` values prefixed. */
  lemma {:induction false} ObjectTagRewrite(ps: seq<TagPiece>, prefix: string)
    ensures ObjectTagText(ps, prefix) == TagPiecesText(PrefixData(ps, prefix))
  {
    if ps != [] {
      ObjectTagRewrite(ps[1..], prefix);
      assert PrefixData(ps, prefix)[1..] == PrefixData(ps[1..], prefix);
    }
  }

  /** A tag whose scanner found no attribute value comes out as it went in, whatever the tag. */
  lemma {:induction false} TagWithoutValues(ps: seq<TagPiece>, prefix: string)
    requires forall k :: 0 <= k < |ps| ==> ps[k].TagText?
    ensures ObjectTagText(ps, prefix) == TagPiecesText(ps)
    ensures SrcTagText(ps, prefix) == TagPiecesText(ps)
  {
    if ps != [] {
      TagWithoutValues(ps[1..], prefix);
    }
  }

  /** The resource-tag branch: `object` (in any letter case) or the `src` family. */
  function RewriteTag(tag: string, ps: seq<TagPiece>, prefix: string): string
  {
    if LowerAscii(tag) == "object" then ObjectTagText(ps, prefix) else SrcTagText(ps, prefix)
  }

  // ---------------------------------------------------------------------------
  // Scanner output

  /** The spans the HTML scanner distinguishes, in document order. */
  datatype HtmlSegment =
    | HtmlPlain(text: string)                           // text between matches; never handed to the callback
    | ScriptBlock(text: string)                         // `<script ...>` with its body
    | StyleBlock(text: string)                          // `<style ...>` with its body
    | ResourceTag(tag: string, pieces: seq<TagPiece>)   // `<img|embed|audio|video|object|source ...>`
    | InlineMarker(name: string, text: string)          // `<!--inline[name]-->`
    | HtmlComment(text: string)                         // any other `<!-- ... -->`

  /** The spans the CSS scanner distinguishes, in document order. */
  datatype CssSegment =
    | CssPlain(text: string)                            // text between matches
    | CssComment(text: string)                          // `/* ... */`
    | UrlRef(text: string, url: string, last: string)   // `[@import ]url( url )last`; `url` without the surrounding blanks
    | FilterSrc(text: string)                           // `src=...` of an IE filter

  function HtmlSegmentText(seg: HtmlSegment): string
  {
    match seg
    case HtmlPlain(t) => t
    case ScriptBlock(t) => t
    case StyleBlock(t) => t
    case ResourceTag(_, ps) => TagPiecesText(ps)
    case InlineMarker(_, t) => t
    case HtmlComment(t) => t
  }

  function CssSegmentText(seg: CssSegment): string
  {
    match seg
    case CssPlain(t) => t
    case CssComment(t) => t
    case UrlRef(t, _, _) => t
    case FilterSrc(t) => t
  }

  function HtmlText(segs: seq<HtmlSegment>): string
  {
    if segs == [] then "" else HtmlSegmentText(segs[0]) + HtmlText(segs[1..])
  }

  function CssText(segs: seq<CssSegment>): string
  {
    if segs == [] then "" else CssSegmentText(segs[0]) + CssText(segs[1..])
  }

  /** A file's text with the segment lists the HTML scanner and the CSS scanner make of it. */
  datatype Document = Document(text: string, html: seq<HtmlSegment>, css: seq<CssSegment>)

  /** Both scans cover the text exactly, in order. */
  predicate Scanned(d: Document)
  {
    HtmlText(d.html) == d.text && CssText(d.css) == d.text
  }

  // ---------------------------------------------------------------------------
  // processCss

  /** The `processCss` callback for one match, with a prefix present. */
  function CssCallback(seg: CssSegment, prefix: string): (r: Result<string, RewriteError>)
    ensures (seg.CssPlain? || seg.CssComment?) ==> r == Ok(CssSegmentText(seg))
    ensures seg.UrlRef? && seg.text != [] && seg.text[0] == '@' ==> r == Ok(seg.text)
    ensures seg.UrlRef? && !(seg.text != [] && seg.text[0] == '@') ==>
      r == Ok("url(" + prefix + TrimAtImages(seg.url) + ")" + seg.last)
    ensures seg.FilterSrc? ==> r == Err(UndefinedUrl)
  {
    match seg
    case CssPlain(t) => Ok(t)
    case CssComment(t) => Ok(t)
    case UrlRef(t, url, last) =>
      IndexOfZero(t, '@');
      if IndexOf(t, "@") == 0 then Ok(t)
      else Ok("url(" + prefix + TrimAtImages(url) + ")" + last)
    case FilterSrc(_) =>
      // `url` is undefined for a filter match, so `url.indexOf` throws
      Err(UndefinedUrl)
  }

  /** The outputs of the callback for each segment, in order; the first throw stops the pass. */
  function CssOutputs(segs: seq<CssSegment>, prefix: string): Result<seq<string>, RewriteError>
  {
    if segs == [] then Ok([])
    else match CssCallback(segs[0], prefix)
      case Err(e) => Err(e)
      case Ok(out) =>
        match CssOutputs(segs[1..], prefix)
        case Err(e) => Err(e)
        case Ok(outs) => Ok([out] + outs)
  }

  /** `processCss`: without a prefix every match is returned unchanged. */
  function ProcessCss(segs: seq<CssSegment>, rp: Option<ResourcePrefix>, replaceType: string): Result<string, RewriteError>
  {
    if rp.None? then Ok(CssText(segs))
    else match CssOutputs(segs, PrefixFor(rp.value, replaceType))
      case Err(e) => Err(e)
      case Ok(outs) => Ok(Concat(outs))
  }

  /** With a prefix and no filter match the pass succeeds with one output per segment. */
  lemma {:induction false} CssOutputsAt(segs: seq<CssSegment>, prefix: string)
    requires forall k :: 0 <= k < |segs| ==> !segs[k].FilterSrc?
    ensures CssOutputs(segs, prefix).Ok?
    ensures |CssOutputs(segs, prefix).value| == |segs|
    ensures forall k :: 0 <= k < |segs| ==> CssOutputs(segs, prefix).value[k] == CssCallback(segs[k], prefix).value
  {
    if segs != [] {
      CssOutputsAt(segs[1..], prefix);
    }
  }

  /** With a prefix, a document holding a filter match makes `processCss` throw. */
  lemma {:induction false} CssFilterThrows(segs: seq<CssSegment>, prefix: string)
    requires exists k :: 0 <= k < |segs| && segs[k].FilterSrc?
    ensures CssOutputs(segs, prefix) == Err(UndefinedUrl)
  {
    if !segs[0].FilterSrc? {
      var k :| 0 <= k < |segs| && segs[k].FilterSrc?;
      assert segs[1..][k - 1].FilterSrc?;
      CssFilterThrows(segs[1..], prefix);
    }
  }

  /** A style sheet with nothing but comments, plain text and `@import` is returned unchanged. */
  lemma {:induction false} CssOnlyImports(segs: seq<CssSegment>, rp: Option<ResourcePrefix>, replaceType: string)
    requires forall k :: 0 <= k < |segs| ==>
      segs[k].CssPlain? || segs[k].CssComment? || (segs[k].UrlRef? && segs[k].text != [] && segs[k].text[0] == '@')
    ensures ProcessCss(segs, rp, replaceType) == Ok(CssText(segs))
  {
    if rp.Some? && segs != [] {
      var prefix := PrefixFor(rp.value, replaceType);
      CssOnlyImports(segs[1..], rp, replaceType);
      assert CssCallback(segs[0], prefix) == Ok(CssSegmentText(segs[0]));
    }
  }

  // ---------------------------------------------------------------------------
  // processHtml

  /**
   * The `processHtml` callback for one match. `css` is `processCss` of the whole document,
   * which a `<style>` match is replaced by.
   */
  function HtmlCallback(seg: HtmlSegment, css: Result<string, RewriteError>, rp: Option<ResourcePrefix>, replaceType: string): (r: Result<string, RewriteError>)
    ensures rp.None? ==> r == Ok(HtmlSegmentText(seg))
    ensures seg.HtmlPlain? || seg.ScriptBlock? || seg.InlineMarker? || seg.HtmlComment? ==> r == Ok(HtmlSegmentText(seg))
    ensures rp.Some? && seg.StyleBlock? ==> r == css
    ensures rp.Some? && seg.ResourceTag? ==> r == Ok(RewriteTag(seg.tag, seg.pieces, PrefixFor(rp.value, replaceType)))
  {
    if rp.None? || !(seg.StyleBlock? || seg.ResourceTag?) then Ok(HtmlSegmentText(seg))
    else if seg.StyleBlock? then css
    else Ok(RewriteTag(seg.tag, seg.pieces, PrefixFor(rp.value, replaceType)))
  }

  function HtmlOutputs(segs: seq<HtmlSegment>, css: Result<string, RewriteError>, rp: Option<ResourcePrefix>, replaceType: string): Result<seq<string>, RewriteError>
  {
    if segs == [] then Ok([])
    else match HtmlCallback(segs[0], css, rp, replaceType)
      case Err(e) => Err(e)
      case Ok(out) =>
        match HtmlOutputs(segs[1..], css, rp, replaceType)
        case Err(e) => Err(e)
        case Ok(outs) => Ok([out] + outs)
  }

  /** `processHtml`: the callback mapped over the HTML scan of `doc`. */
  function ProcessHtml(doc: Document, rp: Option<ResourcePrefix>, replaceType: string): Result<string, RewriteError>
  {
    match HtmlOutputs(doc.html, ProcessCss(doc.css, rp, replaceType), rp, replaceType)
    case Err(e) => Err(e)
    case Ok(outs) => Ok(Concat(outs))
  }

  /** When every callback succeeds, the outputs line up with the segments one for one. */
  lemma {:induction false} HtmlOutputsAt(segs: seq<HtmlSegment>, css: Result<string, RewriteError>, rp: Option<ResourcePrefix>, replaceType: string)
    requires css.Ok? || rp.None? || forall k :: 0 <= k < |segs| ==> !segs[k].StyleBlock?
    ensures HtmlOutputs(segs, css, rp, replaceType).Ok?
    ensures |HtmlOutputs(segs, css, rp, replaceType).value| == |segs|
    ensures forall k :: 0 <= k < |segs| ==>
      HtmlOutputs(segs, css, rp, replaceType).value[k] == HtmlCallback(segs[k], css, rp, replaceType).value
  {
    if segs != [] {
      HtmlOutputsAt(segs[1..], css, rp, replaceType);
    }
  }

  /** The segments whose outputs are their own text give back exactly their text. */
  lemma {:induction false} OutputsOfUntouched(segs: seq<HtmlSegment>, css: Result<string, RewriteError>, rp: Option<ResourcePrefix>, replaceType: string)
    requires forall k :: 0 <= k < |segs| ==> HtmlCallback(segs[k], css, rp, replaceType) == Ok(HtmlSegmentText(segs[k]))
    ensures HtmlOutputs(segs, css, rp, replaceType).Ok?
    ensures Concat(HtmlOutputs(segs, css, rp, replaceType).value) == HtmlText(segs)
  {
    if segs != [] {
      OutputsOfUntouched(segs[1..], css, rp, replaceType);
    }
  }

  /** Without a prefix (a configuration that loads as a falsy value), `processHtml` returns the document unchanged. */
  lemma HtmlWithoutPrefix(doc: Document, replaceType: string)
    requires Scanned(doc)
    ensures ProcessHtml(doc, None, replaceType) == Ok(doc.text)
  {
    OutputsOfUntouched(doc.html, ProcessCss(doc.css, None, replaceType), None, replaceType);
  }

  /** A page whose scan has no `<style>` and no resource tag is returned unchanged by any prefix. */
  lemma HtmlWithoutReferences(doc: Document, rp: Option<ResourcePrefix>, replaceType: string)
    requires Scanned(doc)
    requires forall k :: 0 <= k < |doc.html| ==> !doc.html[k].StyleBlock? && !doc.html[k].ResourceTag?
    ensures ProcessHtml(doc, rp, replaceType) == Ok(doc.text)
  {
    OutputsOfUntouched(doc.html, ProcessCss(doc.css, rp, replaceType), rp, replaceType);
  }

  /** A `<style>` block is replaced by the rewritten CSS of the whole page, not of its own body. */
  lemma StyleTakesWholePage(doc: Document, rp: ResourcePrefix, replaceType: string, k: nat)
    requires k < |doc.html| && doc.html[k].StyleBlock?
    requires ProcessCss(doc.css, Some(rp), replaceType).Ok?
    ensures HtmlOutputs(doc.html, ProcessCss(doc.css, Some(rp), replaceType), Some(rp), replaceType).Ok?
    ensures |HtmlOutputs(doc.html, ProcessCss(doc.css, Some(rp), replaceType), Some(rp), replaceType).value| == |doc.html|
    ensures HtmlOutputs(doc.html, ProcessCss(doc.css, Some(rp), replaceType), Some(rp), replaceType).value[k]
            == ProcessCss(doc.css, Some(rp), replaceType).value
  {
    HtmlOutputsAt(doc.html, ProcessCss(doc.css, Some(rp), replaceType), Some(rp), replaceType);
  }

  /** With a prefix, the first `<style>` match hands on the error of a failed `processCss`. */
  lemma {:induction false} HtmlStyleThrows(segs: seq<HtmlSegment>, e: RewriteError, rp: ResourcePrefix, replaceType: string)
    requires exists k :: 0 <= k < |segs| && segs[k].StyleBlock?
    ensures HtmlOutputs(segs, Err(e), Some(rp), replaceType) == Err(e)
  {
    if !segs[0].StyleBlock? {
      var k :| 0 <= k < |segs| && segs[k].StyleBlock?;
      assert segs[1..][k - 1].StyleBlock?;
      HtmlStyleThrows(segs[1..], e, rp, replaceType);
    }
  }

  /**
   * A prefixed page with a `<style>` block whose text holds an IE filter `src` makes
   * `processHtml` throw: the style block runs `processCss` on the whole page.
   */
  lemma StyleWithFilterThrows(doc: Document, rp: ResourcePrefix, replaceType: string)
    requires exists k :: 0 <= k < |doc.html| && doc.html[k].StyleBlock?
    requires exists j :: 0 <= j < |doc.css| && doc.css[j].FilterSrc?
    ensures ProcessHtml(doc, Some(rp), replaceType) == Err(UndefinedUrl)
  {
    CssFilterThrows(doc.css, PrefixFor(rp, replaceType));
    HtmlStyleThrows(doc.html, UndefinedUrl, rp, replaceType);
  }

  /** With a prefix `processCss` throws exactly when the sheet holds a filter match, and then for the undefined `url`. */
  lemma ProcessCssFails(segs: seq<CssSegment>, rp: Option<ResourcePrefix>, replaceType: string)
    ensures ProcessCss(segs, rp, replaceType).Err? <==> rp.Some? && exists k :: 0 <= k < |segs| && segs[k].FilterSrc?
    ensures ProcessCss(segs, rp, replaceType).Err? ==> ProcessCss(segs, rp, replaceType) == Err(UndefinedUrl)
  {
    if rp.Some? {
      var prefix := PrefixFor(rp.value, replaceType);
      if exists k :: 0 <= k < |segs| && segs[k].FilterSrc? {
        CssFilterThrows(segs, prefix);
      } else {
        CssOutputsAt(segs, prefix);
      }
    }
  }

  /**
   * `processHtml` throws exactly when there is a prefix, a `<style>` match and a filter match
   * anywhere in the page, and then for the undefined `url`.
   */
  lemma ProcessHtmlFails(doc: Document, rp: Option<ResourcePrefix>, replaceType: string)
    ensures ProcessHtml(doc, rp, replaceType).Err? <==>
      rp.Some? && (exists k :: 0 <= k < |doc.html| && doc.html[k].StyleBlock?) &&
      (exists j :: 0 <= j < |doc.css| && doc.css[j].FilterSrc?)
    ensures ProcessHtml(doc, rp, replaceType).Err? ==> ProcessHtml(doc, rp, replaceType) == Err(UndefinedUrl)
  {
    var css := ProcessCss(doc.css, rp, replaceType);
    ProcessCssFails(doc.css, rp, replaceType);
    if rp.Some? && (exists k :: 0 <= k < |doc.html| && doc.html[k].StyleBlock?) && css.Err? {
      StyleWithFilterThrows(doc, rp.value, replaceType);
    } else {
      HtmlOutputsAt(doc.html, css, rp, replaceType);
    }
  }

  // ---------------------------------------------------------------------------
  // Dispatch on the file extension

  datatype Handler = ScriptHandler | StyleHandler | MarkupHandler | NoHandler

  /** The extension tests of the stream, in their order: `/js/`, then `/(css|sass|less)/`, then `/html/`. */
  function Dispatch(ext: string): (h: Handler)
    ensures h == ScriptHandler <==> Contains(ext, "js")
    ensures h == StyleHandler <==> !Contains(ext, "js") && (Contains(ext, "css") || Contains(ext, "sass") || Contains(ext, "less"))
    ensures h == MarkupHandler <==> !Contains(ext, "js") && !Contains(ext, "css") && !Contains(ext, "sass") && !Contains(ext, "less") && Contains(ext, "html")
  {
    if Contains(ext, "js") then ScriptHandler
    else if Contains(ext, "css") || Contains(ext, "sass") || Contains(ext, "less") then StyleHandler
    else if Contains(ext, "html") then MarkupHandler
    else NoHandler
  }

  /** `processJs` returns the script as it is. */
  function ProcessJs(contents: string, rp: Option<ResourcePrefix>): string
  {
    contents
  }

  /** How the file's contents reach the stream. */
  datatype FileContents = NullContents | BufferContents(doc: Document) | StreamContents

  datatype VinylFile = VinylFile(path: string, contents: FileContents)

  /** What the stream hands on: the file as it came, or its path with new contents. */
  datatype Emitted = PassedOn(file: VinylFile) | Rewritten(path: string, text: string)

  /** The stream's transform for one file. */
  function TransformFile(f: VinylFile, rp: Option<ResourcePrefix>, replaceType: string): (r: Result<Emitted, RewriteError>)
    ensures !f.contents.BufferContents? ==> r == Ok(PassedOn(f))
  {
    match f.contents
    case NullContents => Ok(PassedOn(f))
    case StreamContents => Ok(PassedOn(f))
    case BufferContents(doc) =>
      match Dispatch(Extname(f.path))
      case ScriptHandler => Ok(Rewritten(f.path, ProcessJs(doc.text, rp)))
      case StyleHandler =>
        (match ProcessCss(doc.css, rp, replaceType)
         case Err(e) => Err(e)
         case Ok(t) => Ok(Rewritten(f.path, t)))
      case MarkupHandler =>
        (match ProcessHtml(doc, rp, replaceType)
         case Err(e) => Err(e)
         case Ok(t) => Ok(Rewritten(f.path, t)))
      case NoHandler => Ok(PassedOn(f))
  }

  /** Scripts (any extension containing `js`, `.json` too) and files of no known kind keep their text. */
  lemma TransformKeepsScripts(f: VinylFile, rp: Option<ResourcePrefix>, replaceType: string)
    requires f.contents.BufferContents?
    requires Dispatch(Extname(f.path)) in {ScriptHandler, NoHandler}
    ensures TransformFile(f, rp, replaceType) in {Ok(Rewritten(f.path, f.contents.doc.text)), Ok(PassedOn(f))}
  {
  }

  /** Without a prefix every file comes out with the text it went in with. */
  lemma TransformWithoutPrefix(f: VinylFile, replaceType: string)
    requires f.contents.BufferContents? && Scanned(f.contents.doc)
    ensures var r := TransformFile(f, None, replaceType);
      r == Ok(PassedOn(f)) || r == Ok(Rewritten(f.path, f.contents.doc.text))
  {
    HtmlWithoutPrefix(f.contents.doc, replaceType);
  }

  /** `.js` and `.json` both reach `processJs`. */
  lemma DispatchScripts()
    ensures Dispatch(".js") == ScriptHandler && Dispatch(".json") == ScriptHandler
  {
    ContainsInside(".", "js", "");
    assert "." + "js" + "" == ".js";
    ContainsInside(".", "js", "on");
    assert "." + "js" + "on" == ".json";
  }

  /** An extension without `j` that mentions `css` or `less` reaches `processCss`. */
  lemma DispatchStyleWhen(ext: string)
    requires 'j' !in ext && (Contains(ext, "css") || Contains(ext, "less"))
    ensures Dispatch(ext) == StyleHandler
  {
    NotContains(ext, "js", 0);
  }

  /** An extension without `j`, `c`, `a` or `e` that mentions `html` reaches `processHtml`. */
  lemma DispatchMarkupWhen(ext: string)
    requires 'j' !in ext && 'c' !in ext && 'a' !in ext && 'e' !in ext && Contains(ext, "html")
    ensures Dispatch(ext) == MarkupHandler
  {
    NotContains(ext, "js", 0);
    NotContains(ext, "css", 0);
    NotContains(ext, "sass", 1);
    NotContains(ext, "less", 1);
  }

  /** An extension without `j`, `c`, `a`, `e` or `h` reaches no handler. */
  lemma DispatchNoneWhen(ext: string)
    requires 'j' !in ext && 'c' !in ext && 'a' !in ext && 'e' !in ext && 'h' !in ext
    ensures Dispatch(ext) == NoHandler
  {
    NotContains(ext, "js", 0);
    NotContains(ext, "css", 0);
    NotContains(ext, "sass", 1);
    NotContains(ext, "less", 1);
    NotContains(ext, "html", 0);
  }

  /** `.css` reaches `processCss`. */
  lemma DispatchCss()
    ensures Dispatch(".css") == StyleHandler
  {
    ContainsInside(".", "css", "");
    assert "." + "css" + "" == ".css";
    DispatchStyleWhen(".css");
  }

  /** `.html` reaches `processHtml`. */
  lemma DispatchHtml()
    ensures Dispatch(".html") == MarkupHandler
  {
    ContainsInside(".", "html", "");
    assert "." + "html" + "" == ".html";
    DispatchMarkupWhen(".html");
  }

  /** An image reaches no handler and is passed on untouched. */
  lemma DispatchImage()
    ensures Dispatch(".png") == NoHandler
  {
    DispatchNoneWhen(".png");
  }

  // ---------------------------------------------------------------------------
  // `replace`: the module-level configuration and the stream

  /** The options a caller passes to `replace`; `None` leaves the default in place. */
  datatype ReplaceOptions = ReplaceOptions(cwd: Option<string>, moduleName: Option<string>, replaceType: Option<string>)

  /** The module-level `config`; the empty string stands for undefined. */
  datatype ReplaceConfig = ReplaceConfig(cwd: string, moduleName: string, replaceType: string)

  /** `_.assign({cwd: undefined, module: undefined, replaceType: 'deploy'}, opts)` */
  function AssignDefaults(opts: ReplaceOptions): (c: ReplaceConfig)
    ensures c.replaceType == (if opts.replaceType.Some? then opts.replaceType.value else "deploy")
    ensures c.cwd == (if opts.cwd.Some? then opts.cwd.value else [])
    ensures c.moduleName == (if opts.moduleName.Some? then opts.moduleName.value else [])
  {
    ReplaceConfig(
      if opts.cwd.Some? then opts.cwd.value else [],
      if opts.moduleName.Some? then opts.moduleName.value else [],
      if opts.replaceType.Some? then opts.replaceType.value else "deploy")
  }

  /** What `replace` returns: nothing for bad options, else a stream holding its prefix table. */
  datatype ReplaceStream = NoStream | Stream(prefix: Option<ResourcePrefix>)

  /** The module of `athena_replace.js` with its shared `config` variable. */
  class Replacer {
    var config: ReplaceConfig

    constructor ()
      ensures config == ReplaceConfig([], [], [])
    {
      config := ReplaceConfig([], [], []);
    }

    /**
     * `replace(opts)`: overwrites the shared configuration, then builds the prefix table
     * from the module's and the app's configuration objects. `appConf` and `moduleConf` are
     * the values `require` loaded from `cwd/app-conf` and `cwd/<module>/module-conf`; the
     * throw of `require` for a file that does not exist is not modelled.
     */
    method Replace(opts: ReplaceOptions, appConf: Option<AppConf>, moduleConf: Option<ModuleConf>)
      returns (r: Result<ReplaceStream, RewriteError>)
      modifies this
      ensures config == AssignDefaults(opts)
      ensures config.cwd == [] || config.moduleName == [] ==> r == Ok(NoStream)
      ensures config.cwd != [] && config.moduleName != [] ==>
        match BuildPrefix(appConf, moduleConf)
        case Err(e) => r == Err(e)
        case Ok(rp) => r == Ok(Stream(rp))
    {
      config := AssignDefaults(opts);
      if config.cwd == [] || config.moduleName == [] {
        return Ok(NoStream);
      }
      var prefix := BuildPrefix(appConf, moduleConf);
      if prefix.Err? {
        return Err(prefix.error);
      }
      r := Ok(Stream(prefix.value));
    }

    /**
     * The stream's transform: it uses the prefix table of its own `replace` call but the
     * replace type of whichever `replace` call ran last.
     */
    method Transform(s: ReplaceStream, f: VinylFile) returns (r: Result<Emitted, RewriteError>)
      requires s.Stream?
      ensures r == TransformFile(f, s.prefix, config.replaceType)
    {
      r := TransformFile(f, s.prefix, config.replaceType);
    }
  }
}
