/**
 * The publish task of `lib/build/tasks/publish.js`.
 *
 * The task lists the HTML pages of a module's output directory, asks for a remote
 * machine and a selection of pages, builds five lists for the selected pages (the
 * globs to send untouched, the page paths, the combined page paths, the combined
 * `.shtml` paths and the manifest of files to publish) and then runs its transfers one
 * after another, each started from the completion callback of the one before.
 *
 * File system reads are inputs: the output directory listing, the `include` index of
 * `dist/map.json`, the listing of `dist/output/images/` (empty when it is missing, which adds the same nothing) and
 * `Util.getHashName` against that map, which is an uninterpreted `hash` function. The
 * streams, the transfer plug-ins and the combo step are recorded as `Action`s in the
 * order the callbacks start them.
 */
module Publish {
  import opened Wrappers
  import opened Text
  import opened Config
  import AthenaReplace

  // ---------------------------------------------------------------------------
  // The pages offered for selection

  /** One checkbox choice of the pages question. */
  datatype Choice = Choice(name: string, value: string)

  /** The choices offered: each listing entry whose name contains `.html`, in listing order. */
  function PageChoices(listing: seq<string>): seq<Choice>
  {
    Flatten(listing, PageChoice)
  }

  /** The choice one entry of the listing contributes: itself when its name holds `.html`. */
  function PageChoice(item: string): seq<Choice>
  {
    if Contains(item, ".html") then [Choice(item, item)] else []
  }

  /** The `readOutput.forEach` loop that fills `pages`. */
  method CandidatePages(listing: seq<string>) returns (pages: seq<Choice>)
    ensures pages == PageChoices(listing)
  {
    pages := [];
    var i := 0;
    while i < |listing|
      invariant 0 <= i <= |listing|
      invariant pages == PageChoices(listing[..i])
    {
      var item := listing[i];
      if Contains(item, ".html") {
        pages := pages + [Choice(item, item)];
      }
      FlattenSnoc(listing, PageChoice, i);
      i := i + 1;
    }
    assert listing[..i] == listing;
  }

  /** A choice is offered exactly when it names, as both name and value, a listed `.html` entry. */
  lemma {:induction false} PageChoicesExact(listing: seq<string>)
    ensures forall c :: c in PageChoices(listing) <==>
      c.name == c.value && c.name in listing && Contains(c.name, ".html")
  {
    if listing != [] {
      var n := |listing| - 1;
      PageChoicesExact(listing[..n]);
      FlattenSnoc(listing, PageChoice, n);
      assert listing[..n + 1] == listing;
      assert listing == listing[..n] + [listing[n]];
    }
  }

  /** The choices keep the listing's order: the choices of a concatenation are concatenated. */
  lemma PageChoicesAppend(a: seq<string>, b: seq<string>)
    ensures PageChoices(a + b) == PageChoices(a) + PageChoices(b)
  {
    FlattenAppend(a, b, PageChoice);
  }

  /** The pages question is asked exactly when some listed entry contains `.html`. */
  lemma AsksForPages(listing: seq<string>)
    ensures PageChoices(listing) != [] <==> exists x :: x in listing && Contains(x, ".html")
  {
    PageChoicesExact(listing);
    if x :| x in listing && Contains(x, ".html") {
      assert Choice(x, x) in PageChoices(listing);
    } else if PageChoices(listing) != [] {
      var c := PageChoices(listing)[0];
      assert c.name in listing && Contains(c.name, ".html");
    }
  }

  // ---------------------------------------------------------------------------
  // The transfer parameters

  /** `_.assign(_.clone(deployParams), {remotePath})`: the remote's connection settings with a directory. */
  function WithRemotePath(t: TargetConf, remotePath: string): (p: DeployParams)
  {
    DeployParams(t.host, t.user, t.pass, t.port, remotePath)
  }

  /** `deployRemoteParams`: the pages go to the module's directory under `remotePath`. */
  function RemoteParams(t: TargetConf, moduleName: string): DeployParams
  {
    WithRemotePath(t, t.remotePath + "/" + moduleName)
  }

  /** `deployCssiParams`: the `.shtml` fragments go to the module's directory under `cssi`. */
  function CssiParams(t: TargetConf, moduleName: string): DeployParams
  {
    WithRemotePath(t, t.cssi + "/" + moduleName)
  }

  /** Both parameter sets carry the remote's connection settings unchanged and differ only in the directory. */
  lemma ParamsFromTarget(t: TargetConf, moduleName: string)
    ensures var r := RemoteParams(t, moduleName);
      r.host == t.host && r.user == t.user && r.pass == t.pass && r.port == t.port &&
      r.remotePath == t.remotePath + "/" + moduleName
    ensures var c := CssiParams(t, moduleName);
      c.host == t.host && c.user == t.user && c.pass == t.pass && c.port == t.port &&
      c.remotePath == t.cssi + "/" + moduleName
    ensures RemoteParams(t, moduleName).(remotePath := []) == CssiParams(t, moduleName).(remotePath := [])
  {
  }

  // ---------------------------------------------------------------------------
  // The lists built for the selected pages

  /** One entry of a page's `css` or `js` list in `map.json`'s `include`. */
  datatype Dep = Dep(name: string, moduleName: string)

  /** The resources a page includes. */
  datatype PageInclude = PageInclude(css: seq<Dep>, js: seq<Dep>)

  /** The module directory, the module's name and the chosen remote. */
  datatype PageContext = PageContext(modulePath: string, moduleName: string, target: TargetConf)

  /** `dpath` */
  function OutputDir(ctx: PageContext): string
  {
    ctx.modulePath + "/dist/output/"
  }

  /** `cpath` */
  function ComboDir(ctx: PageContext): string
  {
    ctx.modulePath + "/dist/output/combofile/"
  }

  /** The module's directory on the asset server. */
  function AssetDir(ctx: PageContext): string
  {
    ctx.target.assestPrefix + "/" + ctx.moduleName
  }

  /** The four lists a dependency adds to: the CSS and JS globs and the CSS and JS manifest entries. */
  datatype Part = CssGlobs | CssFiles | JsGlobs | JsFiles

  /** The directory the entries of a part are written under. */
  function PartRoot(ctx: PageContext, part: Part): string
  {
    match part
    case CssGlobs => OutputDir(ctx) + "css/"
    case JsGlobs => OutputDir(ctx) + "js/"
    case CssFiles => AssetDir(ctx) + "/css/"
    case JsFiles => AssetDir(ctx) + "/js/"
  }

  function PartSize(part: Part): nat
  {
    match part
    case CssGlobs => 3
    case CssFiles => 4
    case _ => 2
  }

  /**
   * What one dependency of the module adds to one list: a CSS file its `.*` glob and its
   * two hashed names, and the `.css`, `.min.css` and hashed names to the manifest; a JS
   * file its `.*` glob and its hashed name, and the `.js` and hashed names to the manifest.
   */
  function DepPart(ctx: PageContext, hash: string -> string, part: Part, d: Dep): (r: seq<string>)
    ensures |r| == PartSize(part)
  {
    var root := PartRoot(ctx, part);
    match part
    case CssGlobs =>
      var n := Basename(d.name, ".css");
      [root + n + ".*", root + hash(n + ".css"), root + hash(n + ".min.css")]
    case CssFiles =>
      var n := Basename(d.name, ".css");
      [root + n + ".css", root + n + ".min.css", root + hash(n + ".css"), root + hash(n + ".min.css")]
    case JsGlobs =>
      [root + Basename(d.name, ".js") + ".*", root + hash(d.name)]
    case JsFiles =>
      [root + Basename(d.name, ".js") + ".js", root + hash(d.name)]
  }

  /** What one dependency adds to a list: its entries when it belongs to the module, nothing otherwise. */
  function DepEntries(ctx: PageContext, hash: string -> string, part: Part): Dep -> seq<string>
  {
    (d: Dep) => if d.moduleName == ctx.moduleName then DepPart(ctx, hash, part, d) else []
  }

  /** The entries the dependencies of the module among `deps` add to one list, in order. */
  function Gather(ctx: PageContext, hash: string -> string, part: Part, deps: seq<Dep>): seq<string>
  {
    Flatten(deps, DepEntries(ctx, hash, part))
  }

  /** One more dependency adds its entries when it belongs to the module. */
  lemma GatherSnoc(ctx: PageContext, hash: string -> string, part: Part, deps: seq<Dep>, i: nat)
    requires i < |deps|
    ensures Gather(ctx, hash, part, deps[..i + 1]) == Gather(ctx, hash, part, deps[..i]) +
      (if deps[i].moduleName == ctx.moduleName then DepPart(ctx, hash, part, deps[i]) else [])
  {
    FlattenSnoc(deps, DepEntries(ctx, hash, part), i);
  }

  /** How many of `deps` belong to module `m`. */
  function SameModule(deps: seq<Dep>, m: string): nat
  {
    if deps == [] then 0
    else SameModule(deps[..|deps| - 1], m) + (if deps[|deps| - 1].moduleName == m then 1 else 0)
  }

  /** Each dependency of the module adds `PartSize(part)` entries; the others add none. */
  lemma {:induction false} GatherSize(ctx: PageContext, hash: string -> string, part: Part, deps: seq<Dep>)
    ensures |Gather(ctx, hash, part, deps)| == PartSize(part) * SameModule(deps, ctx.moduleName)
  {
    var k := PartSize(part);
    if deps == [] {
      assert k * 0 == 0;
    } else {
      var init, last := deps[..|deps| - 1], deps[|deps| - 1];
      var f := DepEntries(ctx, hash, part);
      GatherSize(ctx, hash, part, init);
      assert Gather(ctx, hash, part, deps) == Gather(ctx, hash, part, init) + f(last);
      var c := SameModule(init, ctx.moduleName);
      if last.moduleName == ctx.moduleName {
        assert |f(last)| == k;
        assert SameModule(deps, ctx.moduleName) == c + 1;
        assert k * (c + 1) == k * c + k;
      } else {
        assert f(last) == [];
        assert SameModule(deps, ctx.moduleName) == c;
      }
    }
  }

  lemma GatherAppend(ctx: PageContext, hash: string -> string, part: Part, a: seq<Dep>, b: seq<Dep>)
    ensures Gather(ctx, hash, part, a + b) == Gather(ctx, hash, part, a) + Gather(ctx, hash, part, b)
  {
    FlattenAppend(a, b, DepEntries(ctx, hash, part));
  }

  /** A dependency of another module adds nothing, wherever it stands in the list. */
  lemma GatherSkipsForeign(ctx: PageContext, hash: string -> string, part: Part, a: seq<Dep>, d: Dep, b: seq<Dep>)
    requires d.moduleName != ctx.moduleName
    ensures Gather(ctx, hash, part, a + [d] + b) == Gather(ctx, hash, part, a + b)
  {
    var f := DepEntries(ctx, hash, part);
    assert f(d) == [];
    FlattenSkip(a, d, b, f);
  }

  /** `publishImages.forEach`: one manifest entry per file of the images directory. */
  function ImageFiles(ctx: PageContext, images: seq<string>): (r: seq<string>)
    ensures |r| == |images|
    ensures forall k :: 0 <= k < |images| ==> r[k] == AssetDir(ctx) + "/images/" + images[k]
  {
    if images == [] then []
    else ImageFiles(ctx, images[..|images| - 1]) + [AssetDir(ctx) + "/images/" + images[|images| - 1]]
  }

  /** `imagesPath` */
  function ImagesGlob(ctx: PageContext): string
  {
    OutputDir(ctx) + "images/*"
  }

  /** The page's `.shtml` fragment on the publishing server. */
  function ShtmlEntry(ctx: PageContext, page: string): string
  {
    ctx.target.shtmlPrefix + "/" + ctx.moduleName + "/" + Basename(page, ".html") + ".shtml"
  }

  /** The globs one page adds: those of its included resources, then the images glob. */
  function PageGlobs(ctx: PageContext, hash: string -> string, index: map<string, PageInclude>, page: string): seq<string>
  {
    (if page in index
     then Gather(ctx, hash, CssGlobs, index[page].css) + Gather(ctx, hash, JsGlobs, index[page].js)
     else []) + [ImagesGlob(ctx)]
  }

  /** The manifest entries one page adds: its resources, its fragment, then the images. */
  function PageFiles(ctx: PageContext, hash: string -> string, index: map<string, PageInclude>,
                     images: seq<string>, page: string): seq<string>
  {
    (if page in index
     then Gather(ctx, hash, CssFiles, index[page].css) + Gather(ctx, hash, JsFiles, index[page].js)
     else []) + [ShtmlEntry(ctx, page)] + ImageFiles(ctx, images)
  }

  /**
   * Every page adds the images glob last; a same-module CSS file adds 3 globs and a
   * same-module JS file 2; a page missing from `include` adds the images glob alone.
   */
  lemma PageGlobsSize(ctx: PageContext, hash: string -> string, index: map<string, PageInclude>, page: string)
    ensures var g := PageGlobs(ctx, hash, index, page);
      |g| >= 1 && g[|g| - 1] == ImagesGlob(ctx)
    ensures if page in index then
        |PageGlobs(ctx, hash, index, page)| ==
          3 * SameModule(index[page].css, ctx.moduleName) + 2 * SameModule(index[page].js, ctx.moduleName) + 1
      else PageGlobs(ctx, hash, index, page) == [ImagesGlob(ctx)]
  {
    if page in index {
      var css, js := index[page].css, index[page].js;
      GatherSize(ctx, hash, CssGlobs, css);
      GatherSize(ctx, hash, JsGlobs, js);
      assert PartSize(CssGlobs) == 3 && PartSize(JsGlobs) == 2;
    }
  }

  /**
   * Every page adds its `.shtml` fragment and one entry per image; a same-module CSS file
   * adds 4 manifest entries and a same-module JS file 2; a page missing from `include`
   * adds only the fragment and the images.
   */
  lemma PageFilesSize(ctx: PageContext, hash: string -> string, index: map<string, PageInclude>,
                      images: seq<string>, page: string)
    ensures ShtmlEntry(ctx, page) in PageFiles(ctx, hash, index, images, page)
    ensures if page in index then
        |PageFiles(ctx, hash, index, images, page)| ==
          4 * SameModule(index[page].css, ctx.moduleName) + 2 * SameModule(index[page].js, ctx.moduleName) + 1 + |images|
      else |PageFiles(ctx, hash, index, images, page)| == 1 + |images|
  {
    var pre: seq<string> := [];
    if page in index {
      var css, js := index[page].css, index[page].js;
      GatherSize(ctx, hash, CssFiles, css);
      GatherSize(ctx, hash, JsFiles, js);
      assert PartSize(CssFiles) == 4 && PartSize(JsFiles) == 2;
      pre := Gather(ctx, hash, CssFiles, css) + Gather(ctx, hash, JsFiles, js);
      assert |pre| == 4 * SameModule(css, ctx.moduleName) + 2 * SameModule(js, ctx.moduleName);
    }
    assert PageFiles(ctx, hash, index, images, page) == pre + [ShtmlEntry(ctx, page)] + ImageFiles(ctx, images);
    InMiddle(pre, ShtmlEntry(ctx, page), ImageFiles(ctx, images));
  }

  /** What one page adds to the globs. */
  function PageGlobsOf(ctx: PageContext, hash: string -> string, index: map<string, PageInclude>): string -> seq<string>
  {
    (page: string) => PageGlobs(ctx, hash, index, page)
  }

  /** What one page adds to the manifest. */
  function PageFilesOf(ctx: PageContext, hash: string -> string, index: map<string, PageInclude>,
                       images: seq<string>): string -> seq<string>
  {
    (page: string) => PageFiles(ctx, hash, index, images, page)
  }

  /** The globs of all selected pages, page after page. */
  function PlanGlobs(ctx: PageContext, hash: string -> string, index: map<string, PageInclude>, pages: seq<string>): seq<string>
  {
    Flatten(pages, PageGlobsOf(ctx, hash, index))
  }

  /** The manifest of all selected pages, page after page. */
  function PlanFiles(ctx: PageContext, hash: string -> string, index: map<string, PageInclude>,
                     images: seq<string>, pages: seq<string>): seq<string>
  {
    Flatten(pages, PageFilesOf(ctx, hash, index, images))
  }

  /** The globs follow the selection order: the globs of a concatenation are concatenated. */
  lemma PlanGlobsAppend(ctx: PageContext, hash: string -> string, index: map<string, PageInclude>,
                        a: seq<string>, b: seq<string>)
    ensures PlanGlobs(ctx, hash, index, a + b) == PlanGlobs(ctx, hash, index, a) + PlanGlobs(ctx, hash, index, b)
  {
    FlattenAppend(a, b, PageGlobsOf(ctx, hash, index));
  }

  /** The manifest follows the selection order as well. */
  lemma PlanFilesAppend(ctx: PageContext, hash: string -> string, index: map<string, PageInclude>,
                        images: seq<string>, a: seq<string>, b: seq<string>)
    ensures PlanFiles(ctx, hash, index, images, a + b) ==
      PlanFiles(ctx, hash, index, images, a) + PlanFiles(ctx, hash, index, images, b)
  {
    FlattenAppend(a, b, PageFilesOf(ctx, hash, index, images));
  }

  /** Each page under a directory. */
  function PrefixWith(dir: string): string -> string
  {
    (page: string) => dir + page
  }

  /** Each page's `.shtml` fragment name under a directory. */
  function ShtmlIn(dir: string): string -> string
  {
    (page: string) => dir + Basename(page, ".html") + ".shtml"
  }

  /** `htmlPathList` for a selection. */
  function HtmlPaths(ctx: PageContext, pages: seq<string>): seq<string>
  {
    Map(pages, PrefixWith(OutputDir(ctx)))
  }

  /** `combofileHtmlList` for a selection. */
  function ComboHtmlPaths(ctx: PageContext, pages: seq<string>): seq<string>
  {
    Map(pages, PrefixWith(ComboDir(ctx)))
  }

  /** `combofileSHtmlList` for a selection. */
  function ComboShtmlPaths(ctx: PageContext, pages: seq<string>): seq<string>
  {
    Map(pages, ShtmlIn(ComboDir(ctx)))
  }

  /** The five lists the per-page loop fills. */
  datatype Plan = Plan(
    globPages: seq<string>,
    htmlPathList: seq<string>,
    combofileHtmlList: seq<string>,
    combofileShtmlList: seq<string>,
    publishFiles: seq<string>)

  /** What one more selected page appends to each of the five lists. */
  function NextPlan(ctx: PageContext, hash: string -> string, index: map<string, PageInclude>,
                    images: seq<string>, plan: Plan, page: string): Plan
  {
    Plan(plan.globPages + PageGlobs(ctx, hash, index, page),
         plan.htmlPathList + [OutputDir(ctx) + page],
         plan.combofileHtmlList + [ComboDir(ctx) + page],
         plan.combofileShtmlList + [ComboDir(ctx) + Basename(page, ".html") + ".shtml"],
         plan.publishFiles + PageFiles(ctx, hash, index, images, page))
  }

  /** The five lists after the selected pages, one page after another. */
  function SpecPlan(ctx: PageContext, hash: string -> string, index: map<string, PageInclude>,
                    images: seq<string>, pages: seq<string>): Plan
  {
    if pages == [] then Plan([], [], [], [], [])
    else NextPlan(ctx, hash, index, images, SpecPlan(ctx, hash, index, images, pages[..|pages| - 1]), pages[|pages| - 1])
  }

  /**
   * Each list of a selection's plan is the per-page pieces concatenated: the globs and
   * the manifest are those of every page in turn, and the three page lists map each page.
   */
  lemma {:induction false} SpecPlanLists(ctx: PageContext, hash: string -> string, index: map<string, PageInclude>,
                                         images: seq<string>, pages: seq<string>)
    ensures SpecPlan(ctx, hash, index, images, pages) ==
      Plan(PlanGlobs(ctx, hash, index, pages), HtmlPaths(ctx, pages), ComboHtmlPaths(ctx, pages),
           ComboShtmlPaths(ctx, pages), PlanFiles(ctx, hash, index, images, pages))
  {
    if pages != [] {
      var n := |pages| - 1;
      SpecPlanLists(ctx, hash, index, images, pages[..n]);
      assert pages[..n + 1] == pages;
      FlattenSnoc(pages, PageGlobsOf(ctx, hash, index), n);
      FlattenSnoc(pages, PageFilesOf(ctx, hash, index, images), n);
      MapSnoc(pages, PrefixWith(OutputDir(ctx)), n);
      MapSnoc(pages, PrefixWith(ComboDir(ctx)), n);
      MapSnoc(pages, ShtmlIn(ComboDir(ctx)), n);
    }
  }

  /** The three page lists hold one entry per selected page, index by index. */
  lemma PlanAligned(ctx: PageContext, hash: string -> string, index: map<string, PageInclude>,
                    images: seq<string>, pages: seq<string>)
    ensures var p := SpecPlan(ctx, hash, index, images, pages);
      |p.htmlPathList| == |pages| && |p.combofileHtmlList| == |pages| && |p.combofileShtmlList| == |pages| &&
      forall i :: 0 <= i < |pages| ==>
        p.htmlPathList[i] == ctx.modulePath + "/dist/output/" + pages[i] &&
        p.combofileHtmlList[i] == ctx.modulePath + "/dist/output/combofile/" + pages[i] &&
        p.combofileShtmlList[i] == ctx.modulePath + "/dist/output/combofile/" + Basename(pages[i], ".html") + ".shtml"
  {
    SpecPlanLists(ctx, hash, index, images, pages);
  }

  /** The inner `for` loop over `pageInclude.css`. */
  method CollectCss(ctx: PageContext, hash: string -> string, cssFiles: seq<Dep>, globs0: seq<string>, files0: seq<string>)
    returns (globs: seq<string>, files: seq<string>)
    ensures globs == globs0 + Gather(ctx, hash, CssGlobs, cssFiles)
    ensures files == files0 + Gather(ctx, hash, CssFiles, cssFiles)
  {
    globs, files := globs0, files0;
    var dpath := OutputDir(ctx);
    var assets := AssetDir(ctx);
    var i := 0;
    while i < |cssFiles|
      invariant 0 <= i <= |cssFiles|
      invariant globs == globs0 + Gather(ctx, hash, CssGlobs, cssFiles[..i])
      invariant files == files0 + Gather(ctx, hash, CssFiles, cssFiles[..i])
    {
      var newGlobs, newFiles := [], [];
      if cssFiles[i].moduleName == ctx.moduleName {
        var cssName := Basename(cssFiles[i].name, ".css");
        var cssHashName := hash(cssName + ".css");
        var cssMinHashName := hash(cssName + ".min.css");
        newGlobs := [dpath + "css/" + cssName + ".*", dpath + "css/" + cssHashName, dpath + "css/" + cssMinHashName];
        newFiles := [assets + "/css/" + cssName + ".css", assets + "/css/" + cssName + ".min.css",
                     assets + "/css/" + cssHashName, assets + "/css/" + cssMinHashName];
        assert newGlobs == DepPart(ctx, hash, CssGlobs, cssFiles[i]);
        assert newFiles == DepPart(ctx, hash, CssFiles, cssFiles[i]);
      }
      GatherSnoc(ctx, hash, CssGlobs, cssFiles, i);
      GatherSnoc(ctx, hash, CssFiles, cssFiles, i);
      ConcatAssoc(globs0, Gather(ctx, hash, CssGlobs, cssFiles[..i]), newGlobs);
      ConcatAssoc(files0, Gather(ctx, hash, CssFiles, cssFiles[..i]), newFiles);
      globs, files := globs + newGlobs, files + newFiles;
      i := i + 1;
    }
    assert cssFiles[..i] == cssFiles;
  }

  /** The inner `for` loop over `pageInclude.js`. */
  method CollectJs(ctx: PageContext, hash: string -> string, jsFiles: seq<Dep>, globs0: seq<string>, files0: seq<string>)
    returns (globs: seq<string>, files: seq<string>)
    ensures globs == globs0 + Gather(ctx, hash, JsGlobs, jsFiles)
    ensures files == files0 + Gather(ctx, hash, JsFiles, jsFiles)
  {
    globs, files := globs0, files0;
    var dpath := OutputDir(ctx);
    var assets := AssetDir(ctx);
    var i := 0;
    while i < |jsFiles|
      invariant 0 <= i <= |jsFiles|
      invariant globs == globs0 + Gather(ctx, hash, JsGlobs, jsFiles[..i])
      invariant files == files0 + Gather(ctx, hash, JsFiles, jsFiles[..i])
    {
      var newGlobs, newFiles := [], [];
      if jsFiles[i].moduleName == ctx.moduleName {
        var jsHashName := hash(jsFiles[i].name);
        var jsName := Basename(jsFiles[i].name, ".js");
        newGlobs := [dpath + "js/" + jsName + ".*", dpath + "js/" + jsHashName];
        newFiles := [assets + "/js/" + jsName + ".js", assets + "/js/" + jsHashName];
        assert newGlobs == DepPart(ctx, hash, JsGlobs, jsFiles[i]);
        assert newFiles == DepPart(ctx, hash, JsFiles, jsFiles[i]);
      }
      GatherSnoc(ctx, hash, JsGlobs, jsFiles, i);
      GatherSnoc(ctx, hash, JsFiles, jsFiles, i);
      ConcatAssoc(globs0, Gather(ctx, hash, JsGlobs, jsFiles[..i]), newGlobs);
      ConcatAssoc(files0, Gather(ctx, hash, JsFiles, jsFiles[..i]), newFiles);
      globs, files := globs + newGlobs, files + newFiles;
      i := i + 1;
    }
    assert jsFiles[..i] == jsFiles;
  }

  /** The `publishImages.forEach` loop. */
  method CollectImages(ctx: PageContext, images: seq<string>, files0: seq<string>) returns (files: seq<string>)
    ensures files == files0 + ImageFiles(ctx, images)
  {
    files := files0;
    var i := 0;
    while i < |images|
      invariant 0 <= i <= |images|
      invariant files == files0 + ImageFiles(ctx, images[..i])
    {
      files := files + [AssetDir(ctx) + "/images/" + images[i]];
      assert images[..i + 1][..i] == images[..i];
      i := i + 1;
    }
    assert images[..i] == images;
  }

  /** The body of `answers.pages.forEach` for one page: what it adds to the glob and manifest lists. */
  method AddPage(ctx: PageContext, hash: string -> string, index: map<string, PageInclude>,
                 images: seq<string>, page: string, globs0: seq<string>, files0: seq<string>)
    returns (globs: seq<string>, files: seq<string>)
    ensures globs == globs0 + PageGlobs(ctx, hash, index, page)
    ensures files == files0 + PageFiles(ctx, hash, index, images, page)
  {
    var incGlobs, incFiles := [], [];
    globs, files := globs0, files0;
    if page in index {
      var pageInclude := index[page];
      globs, files := CollectCss(ctx, hash, pageInclude.css, globs, files);
      globs, files := CollectJs(ctx, hash, pageInclude.js, globs, files);
      incGlobs := Gather(ctx, hash, CssGlobs, pageInclude.css) + Gather(ctx, hash, JsGlobs, pageInclude.js);
      incFiles := Gather(ctx, hash, CssFiles, pageInclude.css) + Gather(ctx, hash, JsFiles, pageInclude.js);
      ConcatAssoc(globs0, Gather(ctx, hash, CssGlobs, pageInclude.css), Gather(ctx, hash, JsGlobs, pageInclude.js));
      ConcatAssoc(files0, Gather(ctx, hash, CssFiles, pageInclude.css), Gather(ctx, hash, JsFiles, pageInclude.js));
    } else {
      assert globs0 + incGlobs == globs0 && files0 + incFiles == files0;
    }
    var imagesPath := OutputDir(ctx) + "images/*";
    var shtml := ctx.target.shtmlPrefix + "/" + ctx.moduleName + "/" + Basename(page, ".html") + ".shtml";
    globs := globs + [imagesPath];
    ConcatAssoc(globs0, incGlobs, [imagesPath]);
    files := files + [shtml];
    ConcatAssoc(files0, incFiles, [shtml]);
    files := CollectImages(ctx, images, files);
    ConcatAssoc(files0, incFiles + [shtml], ImageFiles(ctx, images));
  }

  /** One more page extends the plan of the pages before it. */
  lemma SpecPlanSnoc(ctx: PageContext, hash: string -> string, index: map<string, PageInclude>,
                     images: seq<string>, pages: seq<string>, i: nat)
    requires i < |pages|
    ensures SpecPlan(ctx, hash, index, images, pages[..i + 1]) ==
      NextPlan(ctx, hash, index, images, SpecPlan(ctx, hash, index, images, pages[..i]), pages[i])
  {
    assert pages[..i + 1][..i] == pages[..i];
  }

  /** One round of `answers.pages.forEach`: the page's entries appended to each of the five lists. */
  method PlanPage(ctx: PageContext, hash: string -> string, index: map<string, PageInclude>,
                  images: seq<string>, plan: Plan, item: string) returns (next: Plan)
    ensures next == NextPlan(ctx, hash, index, images, plan, item)
  {
    var name := Basename(item, ".html");
    var globs, files := AddPage(ctx, hash, index, images, item, plan.globPages, plan.publishFiles);
    next := Plan(globs, plan.htmlPathList + [OutputDir(ctx) + item], plan.combofileHtmlList + [ComboDir(ctx) + item],
                 plan.combofileShtmlList + [ComboDir(ctx) + name + ".shtml"], files);
  }

  /** `answers.pages.forEach`: the five lists for a selection. */
  method BuildPlan(ctx: PageContext, hash: string -> string, index: map<string, PageInclude>,
                   images: seq<string>, pages: seq<string>) returns (plan: Plan)
    ensures plan == SpecPlan(ctx, hash, index, images, pages)
  {
    plan := Plan([], [], [], [], []);
    var i := 0;
    while i < |pages|
      invariant 0 <= i <= |pages|
      invariant plan == SpecPlan(ctx, hash, index, images, pages[..i])
    {
      SpecPlanSnoc(ctx, hash, index, images, pages, i);
      plan := PlanPage(ctx, hash, index, images, plan, pages[i]);
      i := i + 1;
    }
    assert pages[..i] == pages;
  }

  // ---------------------------------------------------------------------------
  // The transfers, in callback order

  /** Where a stream's files go: the FTP plug-in for `tencent`, the SSH client for `jdTest`, nowhere otherwise. */
  datatype Via = Ftp(params: DeployParams) | Ssh(dir: string) | NoTransfer

  /** The `$.if(remote === 'tencent', ...)` and `$.if(remote === 'jdTest', ...)` pair of one stream. */
  function ViaFor(remote: string, params: DeployParams): Via
  {
    if remote == "tencent" then Ftp(params)
    else if remote == "jdTest" then Ssh(params.remotePath)
    else NoTransfer
  }

  /** The options of `athenaMate.combo`. */
  datatype ComboOptions = ComboOptions(app: string, moduleName: string, cwd: string, fdPath: string, domain: string)

  /** What the task starts, in the order its callbacks start it. */
  datatype Action =
    | Send(sources: seq<string>, base: string, rewrite: AthenaReplace.ReplaceOptions, via: Via)
    | Combine(sources: seq<string>, options: ComboOptions, dest: string)
    | SendCombined(html: seq<string>, rewrite: AthenaReplace.ReplaceOptions, htmlVia: Via, shtml: seq<string>, shtmlVia: Via)
    | CloseSsh
    | Resolve(manifest: Option<seq<string>>)

  /** The answers of the prompt: the remote's name and, when the question was asked, the selected pages. */
  datatype Answers = Answers(remote: string, pages: Option<seq<string>>)

  /** What the task reads before it asks: the configurations, the paths and the files of `dist`. */
  datatype PublishInputs = PublishInputs(
    appConf: AppConf,
    moduleConf: ModuleConf,
    modulePath: string,
    appPath: string,
    output: seq<string>,
    index: map<string, PageInclude>,
    images: seq<string>)

  function ContextOf(inp: PublishInputs, t: TargetConf): PageContext
  {
    PageContext(inp.modulePath, inp.moduleConf.moduleName, t)
  }

  function RewriteOptions(inp: PublishInputs, remote: string): AthenaReplace.ReplaceOptions
  {
    AthenaReplace.ReplaceOptions(Some(inp.appPath), Some(inp.moduleConf.moduleName), Some(remote))
  }

  /**
   * The `athenaMate.replace(...)` call each transfer pipes through returns a stream: `cwd`
   * and `module` are set and the prefix table builds. Otherwise `replace` returns nothing
   * or throws, and the prompt callback crashes before the first transfer starts.
   */
  predicate RewriteReady(inp: PublishInputs)
  {
    inp.appPath != [] && inp.moduleConf.moduleName != [] &&
    "qiang" in inp.appConf.deploy && "jdTest" in inp.appConf.deploy && "tencent" in inp.appConf.deploy
  }

  /**
   * `RewriteReady` is exactly the case where `replace` with the task's options returns a stream,
   * when the configurations `replace` loads are the task's own.
   */
  lemma RewriteReadyIsStream(inp: PublishInputs, remote: string)
    ensures var c := AthenaReplace.AssignDefaults(RewriteOptions(inp, remote));
      RewriteReady(inp) <==>
        c.cwd != [] && c.moduleName != [] && AthenaReplace.BuildPrefix(Some(inp.appConf), Some(inp.moduleConf)).Ok?
  {
  }

  /** The prompt callback gets past its first transfer's set-up: the remote is configured and `replace` works. */
  predicate Proceeds(inp: PublishInputs, remote: string)
  {
    remote in inp.appConf.deploy && RewriteReady(inp)
  }

  /**
   * Everything a run starts for the given answers, in order. The empty run stands for the
   * crash of the prompt callback: on a remote missing from `appConf.deploy`, or in the
   * `replace` call of the first transfer.
   */
  function Run(inp: PublishInputs, hash: string -> string, answers: Answers): seq<Action>
  {
    if !Proceeds(inp, answers.remote) then []
    else
      var t := inp.appConf.deploy[answers.remote];
      match answers.pages
      case Some(pages) => PageRun(inp, answers.remote, t, SpecPlan(ContextOf(inp, t), hash, inp.index, inp.images, pages))
      case None => OutputRun(inp, answers.remote, t)
  }

  /** The five actions of page mode for the lists of the selection. */
  function PageRun(inp: PublishInputs, remote: string, t: TargetConf, plan: Plan): seq<Action>
  {
    var m := inp.moduleConf.moduleName;
    var via := ViaFor(remote, RemoteParams(t, m));
    var rewrite := RewriteOptions(inp, remote);
    [Send(plan.globPages, inp.modulePath + "/dist/output", rewrite, via),
     Combine(plan.htmlPathList, ComboOptions(inp.moduleConf.app, m, inp.appPath, t.fdPath, t.domain),
             inp.modulePath + "/dist/output/combofile"),
     SendCombined(plan.combofileHtmlList, rewrite, via, plan.combofileShtmlList, ViaFor(remote, CssiParams(t, m))),
     CloseSsh,
     Resolve(Some(plan.publishFiles))]
  }

  /** The three actions of whole-output mode. */
  function OutputRun(inp: PublishInputs, remote: string, t: TargetConf): seq<Action>
  {
    [Send([inp.modulePath + "/dist/output/**"], inp.modulePath + "/dist/output", RewriteOptions(inp, remote),
          ViaFor(remote, RemoteParams(t, inp.moduleConf.moduleName))),
     CloseSsh,
     Resolve(None)]
  }

  /**
   * Page mode sends the selected pages' files, combines the pages, sends the combined
   * pages and fragments, closes the SSH client and resolves with the manifest, in that order.
   */
  lemma RunPagesOrder(inp: PublishInputs, hash: string -> string, answers: Answers)
    requires Proceeds(inp, answers.remote) && answers.pages.Some?
    ensures var run := Run(inp, hash, answers);
      var ctx := ContextOf(inp, inp.appConf.deploy[answers.remote]);
      |run| == 5 && run[0].Send? && run[1].Combine? && run[2].SendCombined? && run[3] == CloseSsh &&
      run[0].sources == PlanGlobs(ctx, hash, inp.index, answers.pages.value) &&
      run[1].sources == HtmlPaths(ctx, answers.pages.value) &&
      run[4] == Resolve(Some(PlanFiles(ctx, hash, inp.index, inp.images, answers.pages.value)))
  {
    var t := inp.appConf.deploy[answers.remote];
    var ctx := ContextOf(inp, t);
    var pages := answers.pages.value;
    var plan := SpecPlan(ctx, hash, inp.index, inp.images, pages);
    assert Run(inp, hash, answers) == PageRun(inp, answers.remote, t, plan);
    PageRunShape(inp, answers.remote, t, plan);
    SpecPlanLists(ctx, hash, inp.index, inp.images, pages);
  }

  /** The page run's actions for any lists: which list each action carries. */
  lemma PageRunShape(inp: PublishInputs, remote: string, t: TargetConf, plan: Plan)
    ensures var run := PageRun(inp, remote, t, plan);
      |run| == 5 && run[0].Send? && run[1].Combine? && run[2].SendCombined? && run[3] == CloseSsh &&
      run[0].sources == plan.globPages && run[1].sources == plan.htmlPathList &&
      run[2].html == plan.combofileHtmlList && run[2].shtml == plan.combofileShtmlList &&
      run[4] == Resolve(Some(plan.publishFiles))
  {
  }

  /**
   * Whole-output mode sends the whole `dist/output` tree once, never combines and resolves
   * with no manifest.
   */
  lemma RunWholeOutput(inp: PublishInputs, hash: string -> string, answers: Answers)
    requires Proceeds(inp, answers.remote) && answers.pages.None?
    ensures var run := Run(inp, hash, answers);
      |run| == 3 && run[0].Send? && run[0].sources == [inp.modulePath + "/dist/output/**"] &&
      (forall i :: 0 <= i < |run| ==> !run[i].Combine? && !run[i].SendCombined?) &&
      run[|run| - 1] == Resolve(None)
  {
  }

  /** Either way the SSH client is closed next to last and the promise resolved last, and only there. */
  lemma RunEnds(inp: PublishInputs, hash: string -> string, answers: Answers)
    requires Proceeds(inp, answers.remote)
    ensures var run := Run(inp, hash, answers);
      |run| >= 3 && run[|run| - 2] == CloseSsh && run[|run| - 1].Resolve? &&
      forall i :: 0 <= i < |run| - 1 ==> !run[i].Resolve?
  {
  }

  /** A remote missing from the configuration starts nothing. */
  lemma RunMissingRemote(inp: PublishInputs, hash: string -> string, answers: Answers)
    requires answers.remote !in inp.appConf.deploy
    ensures Run(inp, hash, answers) == []
  {
  }

  /**
   * A `deploy` without one of `qiang`, `jdTest` and `tencent` starts nothing either, whichever
   * remote was chosen: building the prefix table in `replace` throws.
   */
  lemma RunMissingTarget(inp: PublishInputs, hash: string -> string, answers: Answers)
    requires "qiang" !in inp.appConf.deploy || "jdTest" !in inp.appConf.deploy || "tencent" !in inp.appConf.deploy
    ensures Run(inp, hash, answers) == []
  {
  }

  /** Without an app path or a module name `replace` returns no stream, and nothing starts. */
  lemma RunWithoutStream(inp: PublishInputs, hash: string -> string, answers: Answers)
    requires inp.appPath == [] || inp.moduleConf.moduleName == []
    ensures Run(inp, hash, answers) == []
  {
  }

  /** The stage the task is at: which callback it waits for. */
  datatype Phase = Asking | SendingPages | Combining | SendingCombined | SendingOutput | Finished | Crashed

  /** How many actions of the run have started once the task reached `phase`. */
  function Started(phase: Phase, run: seq<Action>): nat
  {
    match phase
    case Asking => 0
    case Crashed => 0
    case SendingPages => 1
    case SendingOutput => 1
    case Combining => 2
    case SendingCombined => 3
    case Finished => |run|
  }

  /**
   * One invocation of the task: the state its nested callbacks share. Each method is one
   * callback; `trace` is what has been started so far.
   */
  class Publisher {
    const inputs: PublishInputs
    const hash: string -> string
    var pages: seq<Choice>
    var phase: Phase
    var answers: Answers
    var plan: Plan
    var trace: seq<Action>

    /** What the callbacks start for the recorded answers, built from the recorded lists. */
    function Script(): seq<Action>
      reads this`answers, this`plan
    {
      if !Proceeds(inputs, answers.remote) then []
      else if answers.pages.Some? then PageRun(inputs, answers.remote, inputs.appConf.deploy[answers.remote], plan)
      else OutputRun(inputs, answers.remote, inputs.appConf.deploy[answers.remote])
    }

    /** The trace is the start of the script; once the lists are built they are those of the selection. */
    predicate Valid()
      reads this
    {
      var script := Script();
      pages == PageChoices(inputs.output) &&
      Started(phase, script) <= |script| && trace == script[..Started(phase, script)] &&
      (phase == Crashed ==> !Proceeds(inputs, answers.remote)) &&
      (phase in {SendingPages, Combining, SendingCombined, SendingOutput, Finished} ==>
         Proceeds(inputs, answers.remote)) &&
      (phase in {SendingPages, Combining, SendingCombined} ==> answers.pages.Some?) &&
      (phase == SendingOutput ==> answers.pages.None?) &&
      (phase in {SendingPages, Combining, SendingCombined, Finished} && answers.pages.Some? ==>
         plan == SpecPlan(ContextOf(inputs, inputs.appConf.deploy[answers.remote]), hash,
                          inputs.index, inputs.images, answers.pages.value))
    }

    /** After the prompt the script is the run the answers call for. */
    lemma ScriptIsRun()
      requires Valid() && phase != Asking
      ensures Script() == Run(inputs, hash, answers)
    {
    }

    /** The promise executor up to the prompt: it lists the candidate pages. */
    constructor (inp: PublishInputs, getHashName: string -> string)
      ensures inputs == inp && phase == Asking && trace == []
      ensures pages == PageChoices(inp.output)
      ensures Valid()
    {
      inputs := inp;
      hash := getHashName;
      answers := Answers([], None);
      plan := Plan([], [], [], [], []);
      trace := [];
      phase := Asking;
      new;
      pages := CandidatePages(inp.output);
    }

    /** Whether the pages question is part of the prompt. */
    function AsksPages(): (b: bool)
      reads this
      requires Valid()
      ensures b <==> exists x :: x in inputs.output && Contains(x, ".html")
    {
      AsksForPages(inputs.output);
      pages != []
    }

    /**
     * The prompt callback: it builds the lists and starts the first transfer. The prompt
     * answers `pages` exactly when it asked the pages question.
     */
    method Answer(a: Answers)
      requires Valid() && phase == Asking
      requires a.pages.Some? <==> pages != []
      modifies this
      ensures Valid() && answers == a
      ensures !Proceeds(inputs, a.remote) ==> phase == Crashed && trace == []
      ensures Proceeds(inputs, a.remote) ==>
        (if a.pages.Some? then phase == SendingPages else phase == SendingOutput) &&
        trace == Run(inputs, hash, a)[..1]
      ensures Proceeds(inputs, a.remote) ==>
        (phase == SendingOutput <==> !exists x :: x in inputs.output && Contains(x, ".html"))
    {
      AsksForPages(inputs.output);
      if !Proceeds(inputs, a.remote) {
        answers := a;
        phase := Crashed;
      } else if a.pages.Some? {
        StartPages(a);
      } else {
        StartOutput(a);
      }
    }

    /** Page mode of the prompt callback: build the five lists, then send the pages' files. */
    method StartPages(a: Answers)
      requires Valid() && phase == Asking && Proceeds(inputs, a.remote) && a.pages.Some?
      modifies this
      ensures Valid() && answers == a && phase == SendingPages
      ensures trace == Run(inputs, hash, a)[..1]
    {
      var deployOptions := inputs.appConf.deploy[a.remote];
      var via := ViaFor(a.remote, RemoteParams(deployOptions, inputs.moduleConf.moduleName));
      var rewrite := RewriteOptions(inputs, a.remote);
      answers := a;
      plan := BuildPlan(ContextOf(inputs, deployOptions), hash, inputs.index, inputs.images, a.pages.value);
      assert plan == SpecPlan(ContextOf(inputs, inputs.appConf.deploy[answers.remote]), hash,
                              inputs.index, inputs.images, answers.pages.value);
      trace := [Send(plan.globPages, inputs.modulePath + "/dist/output", rewrite, via)];
      phase := SendingPages;
      assert Script() == PageRun(inputs, a.remote, deployOptions, plan);
      assert trace == Script()[..1];
      ScriptIsRun();
    }

    /** Whole-output mode of the prompt callback: send everything under `dist/output`. */
    method StartOutput(a: Answers)
      requires Valid() && phase == Asking && Proceeds(inputs, a.remote) && a.pages.None?
      modifies this
      ensures Valid() && answers == a && phase == SendingOutput
      ensures trace == Run(inputs, hash, a)[..1]
    {
      var deployOptions := inputs.appConf.deploy[a.remote];
      var via := ViaFor(a.remote, RemoteParams(deployOptions, inputs.moduleConf.moduleName));
      var rewrite := RewriteOptions(inputs, a.remote);
      answers := a;
      trace := [Send([inputs.modulePath + "/dist/output/**"], inputs.modulePath + "/dist/output", rewrite, via)];
      phase := SendingOutput;
      assert Script() == OutputRun(inputs, a.remote, deployOptions);
      assert trace == Script()[..1];
      ScriptIsRun();
    }

    /** The first transfer of page mode finished: combine the selected pages. */
    method PagesSent()
      requires Valid() && phase == SendingPages
      modifies this
      ensures Valid() && phase == Combining && answers == old(answers)
      ensures trace == old(trace) + [Run(inputs, hash, answers)[1]]
    {
      var t := inputs.appConf.deploy[answers.remote];
      var m := inputs.moduleConf.moduleName;
      ScriptIsRun();
      TakeSnoc(Script(), 1);
      trace := trace + [Combine(plan.htmlPathList, ComboOptions(inputs.moduleConf.app, m, inputs.appPath, t.fdPath, t.domain),
                                inputs.modulePath + "/dist/output/combofile")];
      phase := Combining;
    }

    /** The combined pages are written: send them and their fragments. */
    method Combined()
      requires Valid() && phase == Combining
      modifies this
      ensures Valid() && phase == SendingCombined && answers == old(answers)
      ensures trace == old(trace) + [Run(inputs, hash, answers)[2]]
    {
      var t := inputs.appConf.deploy[answers.remote];
      var m := inputs.moduleConf.moduleName;
      ScriptIsRun();
      TakeSnoc(Script(), 2);
      trace := trace + [SendCombined(plan.combofileHtmlList, RewriteOptions(inputs, answers.remote),
                                     ViaFor(answers.remote, RemoteParams(t, m)), plan.combofileShtmlList,
                                     ViaFor(answers.remote, CssiParams(t, m)))];
      phase := SendingCombined;
    }

    /** The merged transfer ended: close the SSH client and resolve with the manifest. */
    method CombinedSent()
      requires Valid() && phase == SendingCombined
      modifies this
      ensures Valid() && phase == Finished && answers == old(answers)
      ensures trace == Run(inputs, hash, answers)
      ensures trace[|trace| - 1] == Resolve(Some(plan.publishFiles))
    {
      ghost var script := Script();
      var t := inputs.appConf.deploy[answers.remote];
      assert script == PageRun(inputs, answers.remote, t, plan);
      PageRunShape(inputs, answers.remote, t, plan);
      TakeLastTwo(script);
      assert trace + [CloseSsh, Resolve(Some(plan.publishFiles))] == script;
      ScriptIsRun();
      trace := trace + [CloseSsh, Resolve(Some(plan.publishFiles))];
      phase := Finished;
      assert Script() == script == trace == script[..|script|];
    }

    /** The whole-output transfer finished: close the SSH client and resolve with nothing. */
    method OutputSent()
      requires Valid() && phase == SendingOutput
      modifies this
      ensures Valid() && phase == Finished && answers == old(answers)
      ensures trace == Run(inputs, hash, answers)
      ensures trace[|trace| - 1] == Resolve(None)
    {
      ghost var script := Script();
      var t := inputs.appConf.deploy[answers.remote];
      assert script == OutputRun(inputs, answers.remote, t);
      TakeLastTwo(script);
      assert trace + [CloseSsh, Resolve(None)] == script;
      ScriptIsRun();
      trace := trace + [CloseSsh, Resolve(None)];
      phase := Finished;
      assert Script() == script == trace == script[..|script|];
    }
  }
}
