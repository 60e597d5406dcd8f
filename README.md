# athena-html build core in Dafny

This project models the build, publish and reference-rewriting logic of
athena-html, a gulp-based front-end build tool. An athena-html project is an
*app* (a directory with `app-conf.js`) made of *modules* (sub-directories with
`module-conf.js`). The model covers three parts.

- **The reference rewriter** (`athena_replace.js`, module `AthenaReplace`).
  It is a stream transform that prefixes the resource URLs of HTML and CSS
  files with the URL of the current module on the chosen remote machine
  (`qiang`, `jdTest` or `tencent`). It covers:
  - `stringQuote`;
  - the prefix table;
  - the `images` trim;
  - the `src`, `srcset` and `object data=` rewrites;
  - the CSS `url(...)` rewrite;
  - the dispatch on the file extension;
  - the module-level `config` that every call to `replace` overwrites.

  The two scanning regular expressions are not modelled. A `Document` carries
  its text together with the segment lists the HTML scanner and the CSS scanner
  make of it. Each pass then maps its per-match callback over its list.
- **The publish task** (`tasks/publish.js`, module `Publish`). It lists the
  pages of a module's output, asks for a remote and a selection of pages, and
  builds five lists for the selection:
  - the globs to send;
  - the page paths;
  - the combined page paths;
  - the combined `.shtml` paths;
  - the manifest of files to publish.

  It then starts its transfers one after another, each from the completion
  callback of the previous one. Class `Publisher` holds the state these nested
  callbacks share. Each of its methods is one callback, and `trace` records
  what has been started. The invariant `Valid` ties `trace` to a prefix of
  `Run`, the full run that the answers call for.
- **The command entry points** (`index.js`, module `Build`). It covers:
  - how `getConf` classifies an invocation as app, module or neither;
  - which modules `build` and `publish` work on;
  - the strict one-after-another promise chain over modules;
  - what `serve`, `deploy` and `clone` start.

Module `Text` models the JavaScript string builtins and the Node `path`
helpers that the scripts rely on, with their edge cases. Module `Config`
holds the configuration records and module `Wrappers` the `Option` and
`Result` types. Paths in the table below are relative to the repository root.

## Model

| member | source | states |
|---|---|---|
| Text.Trim | lib/build/athena_mate/athena_replace.js:13 | `trim` never lengthens the string, and the result neither starts nor ends with white space |
| Text.TrimCut | lib/build/athena_mate/athena_replace.js:13 | the trimmed string is `s` with a run of white space cut from each end |
| Text.TrimUnique | lib/build/athena_mate/athena_replace.js:13 | any cut of `s` into white space, a core that neither starts nor ends with white space, and white space has the trim as its core |
| Text.TrimStartSkips | lib/build/athena_mate/athena_replace.js:13 | trimming the start drops exactly the leading white space |
| Text.TrimEndSkips | lib/build/athena_mate/athena_replace.js:13 | trimming the end drops exactly the trailing white space |
| Text.TrimNoSpace | lib/build/athena_mate/athena_replace.js:105 | an item that has no white space at either end is left as it is by `trim` |
| Text.IndexOf | lib/build/athena_mate/athena_replace.js:120 | `indexOf` gives the first index where the pattern occurs, and -1 exactly when it occurs nowhere |
| Text.IndexOfZero | lib/build/athena_mate/athena_replace.js:146 | `m.indexOf('@') === 0` holds exactly when the match starts with `@` |
| Text.Substr | lib/build/athena_mate/athena_replace.js:122 | `substr(start)` is a suffix; a start inside the string keeps `length - start` characters, and a negative start counts back from the end, stopping at 0 |
| Text.Split | lib/build/athena_mate/athena_replace.js:103 | `split(',')` returns at least one piece and no piece holds a comma |
| Text.JoinSplit | lib/build/athena_mate/athena_replace.js:103 | joining the pieces of `split(c)` with `c` gives back the original string |
| Text.RemoveChar | lib/build/athena_mate/athena_replace.js:119 | `replace(/"/g, '')` leaves no `"`, keeps every other character as often as it occurs, and leaves a string without `"` unchanged |
| Text.RemoveCharAppend | lib/build/athena_mate/athena_replace.js:119 | removal works piece by piece, so the characters that stay keep their order |
| Text.LowerAscii | lib/build/athena_mate/athena_replace.js:92 | `toLowerCase` keeps the length and maps each upper-case ASCII letter to its lower-case letter, leaving other characters alone |
| Text.LastIndexOf | lib/build/tasks/publish.js:91 | the index of the last occurrence of the character, and no occurrence after it |
| Text.BaseName | lib/build/tasks/publish.js:91 | the last path segment holds no `/` and ends the path |
| Text.BaseNameWhole | lib/build/tasks/publish.js:91 | the base name is the whole last segment: the whole path, or what follows its last `/` |
| Text.Basename | lib/build/tasks/publish.js:91 | `path.basename(p, ext)` drops a trailing `ext` from a longer last segment, keeps a segment that does not end with `ext`, is empty when the path is `ext`, and keeps the segment when `ext` is empty or exactly as long as it |
| Text.Extname | lib/build/athena_mate/athena_replace.js:60 | `path.extname` is empty exactly when the last segment is `..` or has no dot after its first character; otherwise it is the shorter end of that segment from its last dot |
| Text.PathJoin | lib/build/index.js:25-28 | joining with an empty segment gives the first path; joining two non-empty paths puts one `/` between them |
| Text.Parent | lib/build/index.js:49 | `path.resolve(p, '..')` is `/` when `p` has no `/` after its first character; otherwise it is the non-empty part of `p` before its last `/` |
| AthenaReplace.FirstEnclosing | lib/build/athena_mate/athena_replace.js:19-26 | gives the index of the first quote character that both starts and ends the trimmed value, with no earlier character doing so, or `|quotes|` when none does |
| AthenaReplace.FindQuote | lib/build/athena_mate/athena_replace.js:18-26 | the `for`/`break` loop stops at that first enclosing quote character |
| AthenaReplace.StringQuote | lib/build/athena_mate/athena_replace.js:10-29 | `stringQuote` returns the result `QuoteSpec` defines: the untrimmed `origin`, the trimmed `rest` and an empty quote, or the inner text and the quote when a quote encloses the value |
| AthenaReplace.StringQuoteStrips | lib/build/athena_mate/athena_replace.js:10-29 | a trimmed value of two or more characters that starts and ends with the same `'` or `"` gives that quote and its inner substring |
| AthenaReplace.StringQuoteKeeps | lib/build/athena_mate/athena_replace.js:10-29 | any other value gives quote `''` and the whole trimmed value as `rest`; `origin` is always the untrimmed input |
| AthenaReplace.StringQuoteLoneQuote | lib/build/athena_mate/athena_replace.js:21-23 | a value that trims to one quote character counts as quoted, and its `rest` is that character, because `substring(1, 0)` swaps its bounds |
| AthenaReplace.BuildPrefix | lib/build/athena_mate/athena_replace.js:46-53 | no table when either loaded configuration is a falsy value; otherwise the table exists exactly when all three remotes are configured, the error names the first missing one, `qiang` is `/remotePath/module/`, and `jdTest` and `tencent` are `//domain fdPath/app/module/` |
| AthenaReplace.PrefixEndsInSlash | lib/build/athena_mate/athena_replace.js:50-52 | each of the three prefixes ends in `/`; any other replace type reads as the string `undefined` |
| AthenaReplace.PrefixFor | lib/build/athena_mate/athena_replace.js:94 | `resourcePrefix[config.replaceType]`; what it gives is stated by `PrefixEndsInSlash` |
| AthenaReplace.TrimAtImages | lib/build/athena_mate/athena_replace.js:120-123 | a value holding `images` becomes its suffix from the first `images`; one without it becomes its last character, because the test `if (imagesIndex)` is true for -1 |
| AthenaReplace.ImagesAfterPrefix | lib/build/athena_mate/athena_replace.js:120 | when the prefix holds no `images`, the first `images` of a prefixed trimmed value is the one right after the prefix |
| AthenaReplace.TrimAtImagesIdempotent | lib/build/athena_mate/athena_replace.js:120-124 | trimming a prefixed, trimmed value again gives the same trimmed value |
| AthenaReplace.SrcValue | lib/build/athena_mate/athena_replace.js:119-125 | the `src` value loses every `"` (and only `"`), is cut at its first `images` (or shrinks to its last character), and follows the target prefix |
| AthenaReplace.SrcValueIdempotent | lib/build/athena_mate/athena_replace.js:119-125 | rewriting an already rewritten `src` value changes nothing when the prefix holds no `images` and no `"` |
| AthenaReplace.SrcsetItemShape | lib/build/athena_mate/athena_replace.js:104-115 | a trimmed item without a space is kept verbatim; one with a space becomes the prefix + the text from its first space on (the URL is dropped), and that space is strictly inside the item |
| AthenaReplace.InnerSpace | lib/build/athena_mate/athena_replace.js:106 | the space that `indexOf(' ')` finds in a trimmed item is neither its first nor its last character |
| AthenaReplace.SrcsetKeepsItems | lib/build/athena_mate/athena_replace.js:101-117 | the rewritten `srcset` has one entry per comma-separated item, each rewritten on its own and in order, joined with `", "` inside the original quote |
| AthenaReplace.SrcsetEntry | lib/build/athena_mate/athena_replace.js:104-115 | the `forEach` body pushes the rewrite `SrcsetItem` of its item |
| AthenaReplace.SrcsetItemsSnoc | lib/build/athena_mate/athena_replace.js:103 | one more item appends its rewritten entry at the end |
| AthenaReplace.SrcsetEntries | lib/build/athena_mate/athena_replace.js:102-116 | the loop's `srcset` array is the items rewritten one by one, in order |
| AthenaReplace.RewriteSrcset | lib/build/athena_mate/athena_replace.js:99-117 | the `srcset` branch computes the value `SrcsetValue` specifies |
| AthenaReplace.PrefixData | lib/build/athena_mate/athena_replace.js:94-96 | the `object` rewrite keeps every piece that is not a `data=` value and replaces each value by the prefix followed by the value verbatim, quotes included |
| AthenaReplace.ObjectTagRewrite | lib/build/athena_mate/athena_replace.js:93-96 | the rewritten `object` tag is the original tag with only its `data` values prefixed |
| AthenaReplace.TagWithoutValues | lib/build/athena_mate/athena_replace.js:93-126 | a resource tag with no attribute value comes out unchanged, whether it is an `object` or not |
| AthenaReplace.RewriteTag | lib/build/athena_mate/athena_replace.js:91-127 | the resource-tag branch, `object` against the `src` attributes; stated by `ObjectTagRewrite`, `TagWithoutValues`, `SrcValue` and `SrcsetKeepsItems` |
| AthenaReplace.CssCallback | lib/build/athena_mate/athena_replace.js:145-163 | comments and plain text are unchanged; a `url` match starting with `@` is unchanged; any other becomes `url(` + prefix + trimmed url + `)` + last; a filter match throws on the undefined `url` |
| AthenaReplace.CssOutputsAt | lib/build/athena_mate/athena_replace.js:140-164 | with no filter match the pass succeeds and gives the callback's output for each segment, in order |
| AthenaReplace.CssFilterThrows | lib/build/athena_mate/athena_replace.js:155-160 | with a prefix, any filter match makes `processCss` throw |
| AthenaReplace.CssOnlyImports | lib/build/athena_mate/athena_replace.js:138-166 | a style sheet with only comments, plain text and `@import` is returned unchanged |
| AthenaReplace.ProcessCss | lib/build/athena_mate/athena_replace.js:138-166 | `processCss`; stated by `CssOutputsAt`, `CssFilterThrows`, `CssOnlyImports` and `ProcessCssFails` |
| AthenaReplace.ProcessCssFails | lib/build/athena_mate/athena_replace.js:138-166 | `processCss` throws exactly when there is a prefix and a filter match, and then for the undefined `url` |
| AthenaReplace.HtmlCallback | lib/build/athena_mate/athena_replace.js:84-130 | without a prefix every match is unchanged; scripts, inline markers and comments are always unchanged; a `<style>` becomes the CSS pass of the page; a resource tag takes the tag rewrite |
| AthenaReplace.HtmlOutputsAt | lib/build/athena_mate/athena_replace.js:84-130 | when no callback throws, the outputs line up with the segments one for one |
| AthenaReplace.OutputsOfUntouched | lib/build/athena_mate/athena_replace.js:84-131 | segments whose callbacks return their own text give back exactly the scanned text |
| AthenaReplace.HtmlWithoutPrefix | lib/build/athena_mate/athena_replace.js:85-88 | without a prefix table `processHtml` returns the page unchanged |
| AthenaReplace.HtmlWithoutReferences | lib/build/athena_mate/athena_replace.js:84-131 | a page without `<style>` and resource tags is returned unchanged under any prefix |
| AthenaReplace.HtmlStyleThrows | lib/build/athena_mate/athena_replace.js:89-90 | with a prefix, a failing `processCss` makes the first `<style>` match throw its error |
| AthenaReplace.StyleWithFilterThrows | lib/build/athena_mate/athena_replace.js:89-90 | with a prefix, a page with a `<style>` match and any filter match in its text makes `processHtml` throw |
| AthenaReplace.StyleTakesWholePage | lib/build/athena_mate/athena_replace.js:89-90 | a `<style>` match is replaced by `processCss` of the whole page's text, not of its own body |
| AthenaReplace.ProcessHtml | lib/build/athena_mate/athena_replace.js:82-131 | `processHtml`; stated by `HtmlOutputsAt`, `HtmlWithoutPrefix`, `HtmlWithoutReferences`, `StyleTakesWholePage`, `StyleWithFilterThrows` and `ProcessHtmlFails` |
| AthenaReplace.ProcessHtmlFails | lib/build/athena_mate/athena_replace.js:82-131 | `processHtml` throws exactly when there is a prefix, a `<style>` match and a filter match in the page, and then for the undefined `url` |
| AthenaReplace.ProcessJs | lib/build/athena_mate/athena_replace.js:133-135 | `processJs` returns the script unchanged; stated by `TransformKeepsScripts` |
| AthenaReplace.Dispatch | lib/build/athena_mate/athena_replace.js:60-67 | the script handler exactly when the extension contains `js`; otherwise the style handler exactly when it contains `css`, `sass` or `less`; otherwise the markup handler exactly when it contains `html` |
| AthenaReplace.DispatchScripts | lib/build/athena_mate/athena_replace.js:61 | `.js` and `.json` both reach `processJs` |
| AthenaReplace.DispatchStyleWhen | lib/build/athena_mate/athena_replace.js:63 | an extension without `j` that mentions `css` or `less` reaches `processCss` |
| AthenaReplace.DispatchMarkupWhen | lib/build/athena_mate/athena_replace.js:65 | an extension without `j`, `c`, `a` and `e` that mentions `html` reaches `processHtml` |
| AthenaReplace.DispatchNoneWhen | lib/build/athena_mate/athena_replace.js:59-69 | an extension without `j`, `c`, `a`, `e` and `h` reaches no handler |
| AthenaReplace.DispatchCss | lib/build/athena_mate/athena_replace.js:63 | `.css` reaches `processCss` |
| AthenaReplace.DispatchHtml | lib/build/athena_mate/athena_replace.js:65 | `.html` reaches `processHtml` |
| AthenaReplace.DispatchImage | lib/build/athena_mate/athena_replace.js:59-69 | a `.png` reaches no handler |
| AthenaReplace.TransformFile | lib/build/athena_mate/athena_replace.js:56-73 | null and stream files are passed on as they came |
| AthenaReplace.TransformKeepsScripts | lib/build/athena_mate/athena_replace.js:59-69 | a buffered script keeps its text through `processJs`, and a file of no known kind is passed on untouched |
| AthenaReplace.TransformWithoutPrefix | lib/build/athena_mate/athena_replace.js:55-73 | without a prefix table every buffered file comes out with the text it went in with |
| AthenaReplace.AssignDefaults | lib/build/athena_mate/athena_replace.js:32-36 | each option left out takes its default: no `cwd`, no `module`, replace type `deploy` |
| AthenaReplace.Replacer.constructor | lib/build/athena_mate/athena_replace.js:8 | the shared `config` starts empty |
| AthenaReplace.Replacer.Replace | lib/build/athena_mate/athena_replace.js:31-53 | `replace` overwrites the shared `config` with the defaulted options; it returns no stream when `cwd` or `module` is missing, and otherwise a stream with the prefix table or the error that building the table throws |
| AthenaReplace.Replacer.Transform | lib/build/athena_mate/athena_replace.js:55-73 | a stream rewrites with its own prefix table but with the replace type of the latest `replace` call |
| Publish.CandidatePages | lib/build/tasks/publish.js:21-28 | the `readOutput.forEach` loop builds exactly the choices `PageChoices` defines |
| Publish.PageChoicesExact | lib/build/tasks/publish.js:21-28 | a choice is offered exactly when it names a listed entry that contains `.html`, with `name == value` |
| Publish.PageChoicesAppend | lib/build/tasks/publish.js:21-28 | the choices keep listing order: the choices of a concatenation are the concatenated choices |
| Publish.AsksForPages | lib/build/tasks/publish.js:44 | the pages question is asked exactly when some listed entry contains `.html` |
| Publish.ParamsFromTarget | lib/build/tasks/publish.js:72-83 | both parameter sets copy host, user, pass and port unchanged; the pages go to `remotePath/module` and the fragments to `cssi/module`, and nothing else differs |
| Publish.DepPart | lib/build/tasks/publish.js:113-138 | a same-module CSS file adds 3 globs and 4 manifest entries, and a JS file 2 of each |
| Publish.GatherSnoc | lib/build/tasks/publish.js:108-140 | one more dependency appends its entries when its `module` is the current module, and nothing otherwise |
| Publish.GatherSize | lib/build/tasks/publish.js:108-140 | a list's length is the per-dependency count times the number of same-module dependencies |
| Publish.GatherAppend | lib/build/tasks/publish.js:108-140 | the entries follow the dependency order |
| Publish.GatherSkipsForeign | lib/build/tasks/publish.js:113 | a dependency of another module adds nothing, wherever it stands |
| Publish.ImageFiles | lib/build/tasks/publish.js:148-150 | one manifest entry per image file, in listing order: entry `k` is `assestPrefix/module/images/` followed by the `k`-th name |
| Publish.PageGlobsSize | lib/build/tasks/publish.js:104-142 | every page ends its globs with `images/*`; a page in `include` adds 3 per same-module CSS file and 2 per JS file before it; a page missing from `include` adds `images/*` alone |
| Publish.PageFilesSize | lib/build/tasks/publish.js:104-152 | every page adds its `.shtml` entry and one entry per image; a page in `include` also adds 4 per same-module CSS file and 2 per JS file |
| Publish.PlanGlobsAppend | lib/build/tasks/publish.js:90-153 | the globs follow the selection order |
| Publish.PlanFilesAppend | lib/build/tasks/publish.js:90-153 | the manifest follows the selection order |
| Publish.SpecPlanLists | lib/build/tasks/publish.js:89-153 | the five lists are the per-page globs and manifests concatenated page by page, and the three page lists map each selected page |
| Publish.PlanAligned | lib/build/tasks/publish.js:90-103 | the three page lists hold one entry per selected page, index-aligned with the selection, and `combofileSHtmlList[i]` is `combofile/` + `basename(page, '.html')` + `.shtml` |
| Publish.CollectCss | lib/build/tasks/publish.js:107-125 | the CSS loop appends exactly the globs and manifest entries of the same-module CSS files |
| Publish.CollectJs | lib/build/tasks/publish.js:127-140 | the JS loop appends exactly the globs and manifest entries of the same-module JS files |
| Publish.CollectImages | lib/build/tasks/publish.js:148-150 | the images loop appends one entry per image, in order |
| Publish.AddPage | lib/build/tasks/publish.js:99-152 | one page appends its `PageGlobs` to the globs and its `PageFiles` to the manifest |
| Publish.SpecPlanSnoc | lib/build/tasks/publish.js:90-153 | one more selected page extends the lists of the pages before it by that page's entries |
| Publish.PlanPage | lib/build/tasks/publish.js:90-153 | one round of the loop appends that page's entries to all five lists |
| Publish.BuildPlan | lib/build/tasks/publish.js:84-153 | `answers.pages.forEach` builds exactly the five lists `SpecPlan` defines for the selection |
| Publish.RewriteReadyIsStream | lib/build/athena_mate/athena_replace.js:31-53 | taking the configurations `replace` loads to be the task's own, the task's `replace` options give a stream exactly when the app path and module name are set and `deploy` holds `qiang`, `jdTest` and `tencent` |
| Publish.Run | lib/build/tasks/publish.js:61-225 | the prompt callback as the actions it starts; stated by `RunPagesOrder`, `RunWholeOutput`, `RunEnds`, `RunMissingRemote`, `RunMissingTarget` and `RunWithoutStream` |
| Publish.PageRun | lib/build/tasks/publish.js:154-205 | the page-mode actions; stated by `PageRunShape` |
| Publish.OutputRun | lib/build/tasks/publish.js:206-223 | the whole-output actions; stated by `RunWholeOutput` |
| Publish.PageRunShape | lib/build/tasks/publish.js:154-205 | the page run is send, combine, merged send, close and resolve, carrying the plan's lists |
| Publish.RunPagesOrder | lib/build/tasks/publish.js:154-205 | when the run gets past `replace`, page mode sends the pages' globs, combines the page paths, sends the combined pages and fragments, closes SSH, and resolves with the manifest, in that order |
| Publish.RunWholeOutput | lib/build/tasks/publish.js:206-223 | when the run gets past `replace`, whole-output mode sends `dist/output/**` once, never combines, and resolves with no manifest |
| Publish.RunEnds | lib/build/tasks/publish.js:193-222 | when the run gets past `replace`, either way the SSH client is closed next to last and the promise is resolved last and nowhere else |
| Publish.RunMissingRemote | lib/build/tasks/publish.js:62-66 | a remote missing from `deploy` crashes in the prompt callback before any transfer |
| Publish.RunMissingTarget | lib/build/tasks/publish.js:155-159 | a `deploy` without one of `qiang`, `jdTest` and `tencent` crashes in the first `replace` call, building the prefix table, before any transfer |
| Publish.RunWithoutStream | lib/build/tasks/publish.js:155-159 | with no app path or no module name `replace` returns no stream, and the first transfer crashes before it starts |
| Publish.Publisher.ScriptIsRun | lib/build/tasks/publish.js:61-225 | after the prompt, the run the recorded state describes is the run the answers call for |
| Publish.Publisher.constructor | lib/build/tasks/publish.js:15-28 | the task starts asking, with nothing started and the candidate pages listed |
| Publish.Publisher.AsksPages | lib/build/tasks/publish.js:44 | the pages question is part of the prompt exactly when some output entry contains `.html` |
| Publish.Publisher.Answer | lib/build/tasks/publish.js:61-89 | a missing remote, a missing target or a missing app path or module name crashes with nothing started; otherwise the first transfer of the chosen mode has been started and nothing else, and whole-output mode is taken exactly when no output entry contains `.html` |
| Publish.Publisher.StartPages | lib/build/tasks/publish.js:84-161 | when `replace` works, page mode builds the lists and starts the first action of the page run |
| Publish.Publisher.StartOutput | lib/build/tasks/publish.js:206-214 | when `replace` works, whole-output mode starts the first action of its run |
| Publish.Publisher.PagesSent | lib/build/tasks/publish.js:162-176 | the end of the first transfer starts the combo, the run's second action |
| Publish.Publisher.Combined | lib/build/tasks/publish.js:177-192 | the end of the combo starts the merged transfer, the run's third action |
| Publish.Publisher.CombinedSent | lib/build/tasks/publish.js:193-203 | the end of the merged transfer completes the page run, ending with the manifest |
| Publish.Publisher.OutputSent | lib/build/tasks/publish.js:215-223 | the end of the whole-output transfer completes its run, resolving with nothing |
| Build.ConfOf | lib/build/index.js:17-66 | an app result carries the app configuration and both paths; a module result also carries the module configuration |
| Build.GetConf | lib/build/index.js:17-66 | `getConf`, reassigning its paths step by step, computes `ConfOf` |
| Build.ConfKinds | lib/build/index.js:40-57 | app exactly when the app directory holds `app-conf.js`; module exactly when it does not and the module directory holds `module-conf.js`; neither otherwise, with both paths null |
| Build.ConfWorkingDirectory | lib/build/index.js:30-38 | an `app-conf.js` in the working directory makes it the app path; a `module-conf.js` there makes it the module path unless an app names a module |
| Build.ConfModes | lib/build/index.js:42-52 | in app mode the module configuration is loaded exactly when a module is named; in module mode the app path is the parent of the module path |
| Build.ModuleList | lib/build/index.js:99-106 | the modules are `[mod]` when a module is named and `appConf.moduleList` otherwise |
| Build.AttemptedStopsAtFirstFailure | lib/build/index.js:111-117 | the chain starts a prefix of the list in order, each after the previous fulfilled, stops only after a rejection, and starts all of them exactly when every step fulfils |
| Build.AttemptedSplit | lib/build/index.js:111-114 | after a run of fulfilled steps the chain goes on with the rest of the list |
| Build.RunInOrder | lib/build/index.js:107-117 | the `promsies.reduce` loop starts exactly the modules `Attempted` specifies and fulfils exactly when every step does |
| Build.BuildsModule | lib/build/index.js:70-89 | `buildSingleModule` fulfils when the module's configuration loads and it compiles; its use is stated by `BuildAppInOrder` |
| Build.SingleModule | lib/build/index.js:70-73 | the module `buildSingleModule` builds when none is named; its use is stated by `BuildAppInOrder` |
| Build.BuildCommand | lib/build/index.js:91-121 | `build`; stated by `BuildAppInOrder` and `BuildRefusesOutsideProjects` |
| Build.BuildAppInOrder | lib/build/index.js:98-117 | for an app the modules are built in list order, only the named one when a module is named, and the command fulfils because of the final `catch` |
| Build.JoinInDir | lib/build/index.js:141 | joining a name onto a directory gives a path inside that directory that ends with `/name` |
| Build.ServerParamsFor | lib/build/index.js:134-142 | the server always serves `.temp` first; with a page and a module it also serves the module's directory and indexes `page.html` inside it |
| Build.ServeCommand | lib/build/index.js:123-179 | `serve`; stated by `ServerParamsFor` and `ServeRefusesOutsideProjects` |
| Build.DeployGlob | lib/build/index.js:199-202 | the upload globs; stated by `DeployAfterAnyBuild` |
| Build.DeployAfterAnyBuild | lib/build/index.js:188-206 | for an app the upload to `qiang` follows the build even when a module failed, and sends `.temp/**`, or the module's directory and `index.html` when a module is named |
| Build.DeployCommand | lib/build/index.js:181-210 | `deploy`; stated by `DeployAfterAnyBuild` and `DeployRefusesOutsideProjects` |
| Build.PublishAppInOrder | lib/build/index.js:220-240 | for an app each module is built and published before the next starts, and the chain stops after the first failure |
| Build.PublishCommand | lib/build/index.js:212-245 | `publish`; stated by `PublishAppInOrder` and `PublishRefusesOutsideProjects` |
| Build.BuildRefusesOutsideProjects | lib/build/index.js:93-96 | outside an app or module `build` returns `false` and starts nothing |
| Build.ServeRefusesOutsideProjects | lib/build/index.js:126-129 | outside an app or module `serve` returns `false` and starts nothing |
| Build.DeployRefusesOutsideProjects | lib/build/index.js:183-186 | outside an app or module `deploy` returns `false` and starts nothing |
| Build.PublishRefusesOutsideProjects | lib/build/index.js:215-218 | outside an app or module `publish` returns `false` and starts nothing |
| Build.CloneDefaults | lib/build/index.js:247-267 | in an app `clone` starts exactly when both source and destination are given; in a module a missing one defaults to the module itself; outside both it is refused |
| Build.CloneCommand | lib/build/index.js:247-275 | `clone`; stated by `CloneDefaults` |

## Left out

- The two scanning regular expressions (`athena_replace.js` lines 83 and 139): the segment lists a `Document` carries stand for their output. `Scanned` only requires that both lists spell out the text.
- Streams, `Buffer` and file reading and writing. They are modelled only as far as the transform sees them: a file is null, buffered (its text and scans) or streamed. `Emitted` says whether the file was passed on or rewritten.
- The FTP and SSH transfers, the `inquirer` prompt, `browserSync` and the `watch` handlers of `serve`. A transfer is an `Action` in the run. The prompt's answers are an input, and the validator that refuses an empty page selection is not modelled. The watch handlers are I/O and live reload.
- `Util.getHashName` and `athenaMate.combo`: their code is not part of this model. The hash is an uninterpreted function `hash`, and the combo step is the `Combine` action.
- `require` and `fs.existsSync`/`readdirSync`: in `Build` the configuration files are maps keyed by path; in `Publish` and `AthenaReplace.Replacer` the loaded configurations are plain inputs. The output listing, the `include` index and the images listing are inputs. A missing images directory is an empty listing.
- Missing configuration fields and non-array `css`/`js` entries in `map.json`: these JavaScript throws are not distinguished from present values. A `TargetConf` always has every field.
- The tasks of `lib/build/tasks` other than publish (`athena_mate`, `styles`, `images`, `temp`, `serve`, `deploy`, `clone`): each module's build or publication outcome is a boolean parameter (`compiles`, `publishes`). The stages of one module are folded into that one outcome.
- The `serve` task's server for a single module: only whether it starts is modelled.
- `lib/build/tasks/scripts.js`: a thin wrapper over uglify, rename and dest with no logic of its own.
- Logging and colour output.
- `Publish.RewriteReady`: `replace` loads `app-conf` and `<module>/module-conf` again with `require` below its `cwd` (`athena_replace.js` lines 42-45). The model takes them to be the task's own configurations, so the throw of that `require` when a file is not there is not modelled. One such case is module mode with a module name that differs from the directory's name: the real task crashes before any transfer, while `Run` gives the full run.
- The outcome of a transfer is not modelled: a run assumes every transfer finishes and fires its 'finish' or 'end' handler.
- In page mode the lists are built before the first `replace` call crashes. A crashed run records nothing, so the model does not keep those lists.
- `Publish.Publisher.Answer`: the prompt is taken to ask for pages exactly when `pages` is not empty, and the answers to carry a selection exactly then.
- `Text.Basename` and `Text.Extname`: trailing slashes are not stripped as Node does. Every path they take here comes from a listing or a file, without one.
- `Build.ConfOf`: a path is a `/`-separated string. `path.join` normalisation of `.`, `..` and repeated slashes is not modelled.
- Where the documented behaviour and the code differ, the model follows the code:
  - the `srcset` branch drops the URL and keeps only prefix + descriptor;
  - the filter branch of `processCss` throws instead of using a previous URL;
  - a value without `images` shrinks to its last character;
  - an unknown replace type prefixes with the string `undefined`;
  - the 'finish' and 'end' handlers take no error, so their `if (err)` checks never fire.
