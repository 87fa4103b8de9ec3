# vuecloakify build core in Dafny

A model of the pure string and tree code of the vuecloakify Keycloak-theme build
tool, with proofs of what that code promises. Three pieces are modelled:

- **Resource-path rewriting** (`fixResourcesPath`): a prefix is chosen from the debug
  flag, the route and the browser window's environment (if there is a window), and a
  leading `/resources/`, `resources/` or `/assets/` segment is replaced by it. The
  three checks run one after another on the value rewritten so far.
- **The environment-config serialiser** (`ftlString` … `ftlStringArray`,
  `generateFtlWithEnvironment`, `buildDefaultEnvironment`):
  - a config is a tree of leaves and nested objects;
  - the serialiser turns it into a FreeMarker-templated
    `window.ENVIRONMENT = Object.assign(…)` statement;
  - the default builder turns it into the object of default values.
- **The prerender helpers**:
  - manifest lookup of a page's entry chunk and client script;
  - the transitive, de-duplicated stylesheet collection and its `<link>` tags;
  - the rewrite of `"resources/…"` literals in compiled JavaScript;
  - the first-occurrence substitutions into the entry and page templates;
  - the page file name.

Files, one module each:

| file | module | contents |
|---|---|---|
| `wrappers.dfy` | `Wrappers` | `Option`, `Result` |
| `strings.dfy` | `Strings` | `startsWith`, `indexOf`, `replace` with a string pattern, `join`, `repeat`, `replaceAll` of one character |
| `js_values.dfy` | `JsValues` | JavaScript values: template-literal interpolation, `??`, property assignment |
| `resource_paths.dfy` | `ResourcePaths` | `fixResourcesPath` |
| `env_config.dfy` | `EnvConfig` | the config tree and the `ftl*` constructors |
| `ftl_generator.dfy` | `FtlGenerator` | `generateFtlWithEnvironment` |
| `default_env.dfy` | `DefaultEnvironment` | `buildDefaultEnvironment` |
| `env_properties.dfy` | `EnvProperties` | properties that relate constructors, serialiser and default builder |
| `manifest.dfy` | `ManifestAssets` | `findManifestEntry`, `findClientScript`, `findCSSAssets` |
| `compiled_paths.dfy` | `CompiledPaths` | the callback of `fixResourcePathsInCompiledFiles` |
| `templates.dfy` | `PageTemplates` | `generateEntryForPage`, the substitutions of `prerenderPage` |

Modelling choices:

- JavaScript `s.replace(pat, rep)` with a string pattern replaces the first occurrence
  only (`Strings.ReplaceFirst`).
- An object's key order is the order of the sequence that represents it.
- `import.meta.env.DEV` and the browser window (`getWindow()`) are parameters:
  - `dev: bool`;
  - `Window`, which is `NoWindow` or a window whose `ENVIRONMENT.resourcesPath` is a
    given value.
- Thrown errors are `Failure` results.
- The manifest is a key sequence plus a map.
- `collectCSS` has no visited set. It returns only when the imports reachable from the
  route's entry contain no cycle; a reachable cycle recurses until a `RangeError`. So the
  model takes a rank map over the records the entry reaches that strictly decreases
  along imports (`Ranked`, `EntryRanked`); records the entry cannot reach need no rank.
- A configuration object is a sequence of entries. A JavaScript object cannot repeat a
  key, so configurations with a repeated key are outside the program's domain; the
  model does not rely on distinct keys.

## Model

| member | source | states |
|---|---|---|
| ResourcePaths.ReplaceIfLeading | src/utils/index.ts:22-25 | a path that starts with the segment has that leading segment replaced by the prefix and the rest kept; any other path is returned unchanged |
| ResourcePaths.FixResourcesPath | src/utils/index.ts:12-28 | a path that starts with none of `/resources/`, `resources/`, `/assets/` is returned unchanged |
| ResourcePaths.DebugIgnoresWindow | src/utils/index.ts:17-20 | in debug mode the prefix is `/` + route + `/resources/`, and the result is the same whatever the window holds |
| ResourcePaths.ReleasePrefix | src/utils/index.ts:17-25 | outside debug mode the prefix is the literal `${url.resourcesPath}/` without a window and the window's `resourcesPath` text plus `/` with one; without a window each of the three leading segments becomes that literal, and the rest of the path is kept |
| ResourcePaths.InertPrefixRewritesOnce | src/utils/index.ts:22-25 | when the prefix cannot itself start a segment checked later, exactly the leading segment is replaced and the rest of the path, including any inner `resources/`, is preserved |
| ResourcePaths.DebugPrefixInert | src/utils/index.ts:20-25 | for a route not starting with `assets` the debug prefix is never rewritten by a later check |
| ResourcePaths.FirstCheckFires | src/utils/index.ts:22-25 | the second and third checks run on the value the first check produced |
| ResourcePaths.ChainedRewrite | src/utils/index.ts:20-25 | in debug mode with route `assets`, `/resources/x` becomes `/assets/resources/resources/x`: the third check rewrites the prefix the first one inserted |
| EnvConfig.TypeOfTag | src/runtime/index.ts:130-177 | every `type` string reads as exactly one leaf type whose tag is that string; unknown strings become `OtherType` and never a supported tag |
| EnvConfig.TagRoundTrip | src/runtime/index.ts:130-177 | a canonical leaf type (no supported tag hidden under `OtherType`) is recovered from its tag, so type and tag determine each other |
| EnvProperties.StringLeafDefaults | src/runtime/index.ts:42-52 | `ftlString` has no fallback in either build: the template writes the chosen value (`default` in release, `debug` in DEV) quoted, or bare `null`/`undefined` when missing; the default builder gives it or `""` |
| EnvConfig.FtlNumber | src/runtime/index.ts:54-64 | a number leaf; with DEV the default is `debug` as given, otherwise `default`, or `0` when that is null or undefined |
| EnvConfig.FtlBoolean | src/runtime/index.ts:66-76 | a boolean leaf; with DEV the default is `debug`, otherwise `default`, or `false` when that is missing |
| EnvConfig.FtlObjectArray | src/runtime/index.ts:78-90 | an `object[]` leaf carrying its item config; with DEV the default is `debug`, otherwise `default`, or `[]` |
| EnvConfig.FtlNumberArray | src/runtime/index.ts:92-104 | a `number[]` leaf; DEV/`[]` default selection; the given `formatItem`, or one that returns the item name unchanged |
| EnvConfig.FtlStringArray | src/runtime/index.ts:106-118 | a `string[]` leaf; DEV/`[]` default selection; the given `formatItem`, or the identity |
| EnvProperties.DefaultFormatItem | src/runtime/index.ts:102-116 | without a `formatItem`, both list kinds write the list variable as the bare name `item` |
| FtlGenerator.FormatStringValue | src/runtime/index.ts:122-125 | null gives `null`, undefined gives `undefined`, a string `s` gives `"s"`; any other value's text is enclosed in a pair of double quotes |
| FtlGenerator.LeafBody | src/runtime/index.ts:129-178 | a leaf fails in exactly four cases: an unknown type; a `number[]` whose default is not a list; a `string[]` whose default is present but not a list; an `object[]` without item config |
| FtlGenerator.RenderEntries | src/runtime/index.ts:127-188 | the entries render in key order; the object renders exactly when every entry does, and a failure is the error of the first entry that fails |
| FtlGenerator.GeneratedScript | src/runtime/index.ts:189-195 | the output exists exactly when every top-level entry renders, and it is `window.ENVIRONMENT = Object.assign(window.ENVIRONMENT ?? {}, { ` + one line per entry (two spaces, then the entry) joined by `",\n"` + ` });` |
| FtlGenerator.ObjectLayout | src/runtime/index.ts:189-190 | the body is one line per entry, in key order, each `indent` spaces plus two spaces plus the entry, joined by `",\n"` |
| FtlGenerator.BuildObjectAppend | src/runtime/index.ts:189-190 | the body of two concatenated configs is the two bodies joined by `",\n"`, and it exists exactly when both do |
| FtlGenerator.NestedEntry | src/runtime/index.ts:179-185 | a nested config renders as `"key": { ` + its body at indent + 2 + ` }` |
| FtlGenerator.ObjectArrayText | src/runtime/index.ts:164-174 | an `object[]` leaf writes `[<#list f as item>{`, a line of 16 spaces holding one `"k": "${item.<field>}"` per item-config key joined by `", "`, a brace after 12 spaces and the list separator, then `]`; a nested child without `field` gives `${item.undefined}`; without an item config the leaf fails |
| FtlGenerator.ObjectArrayIgnoresDefault | src/runtime/index.ts:164-174 | an `object[]` leaf renders the same whatever its default |
| FtlGenerator.MissingListDefault | src/runtime/index.ts:142-162 | with a null or undefined default, a `number[]` leaf fails; a `string[]` leaf renders `[]` as its fallback, and its list branch quotes `${item}` and separates items with `<#if item_has_next>, </#if>` |
| EnvProperties.ScalarFallback | src/runtime/index.ts:131-141 | a scalar leaf renders `"key": <#if (f)?has_content>` + variable + `<#else>` + the default's literal + `</#if>`. The variable is quoted for strings, bare for numbers and `?c` for booleans. The default builder gives the default itself, or `""`/`0`/`false` when it is null or undefined |
| EnvProperties.ListFallback | src/runtime/index.ts:142-162 | a list leaf whose default is a list renders as its fallback the list literal: numbers bare, strings quoted, joined by `", "`. The default builder gives that same list |
| EnvProperties.NumberLeafDefaults | src/runtime/index.ts:54-64 | a server-side number leaf falls back to its default or `0`, and the default builder agrees; with DEV and no debug value the template writes `undefined` while the default builder gives `0` |
| EnvProperties.NumberArrayNeedsList | src/runtime/index.ts:142-151 | a server-side `number[]` config always serialises; with DEV and no debug list it fails |
| EnvProperties.SingleLeafConfig | src/runtime/index.ts:193-195 | a one-leaf config serialises exactly when its leaf renders |
| EnvProperties.ObjectRenderSupported | src/runtime/index.ts:127-191 | every config the serialiser accepts is one the default builder accepts |
| EnvProperties.UnsupportedFailsBoth | src/runtime/index.ts:176-177 | a config holding an unknown leaf type makes both the serialiser and the default builder fail |
| DefaultEnvironment.BuildObject | src/runtime/index.ts:242-283 | succeeds exactly when every leaf type is known. The result has the config's keys in order, each leaf's default (or `""`/`0`/`false`/`[]` for null or undefined) and a nested object for every nested config |
| DefaultEnvironment.DefaultOfSucceedsMirrors | src/runtime/index.ts:245-278 | a leaf's default value is the `??` of its default and the empty value of its type; a nested config gives an object that mirrors it |
| DefaultEnvironment.BuildDefaultEnvironment | src/runtime/index.ts:239-285 | the default environment is an object mirroring the config, or a failure exactly when some leaf type is unknown |
| ManifestAssets.FindEntryIndex | src/cli/prerender.ts:226-230 | the position of the first key, in key order, whose record has `isEntry` true and `name` equal to the route |
| ManifestAssets.FindManifestEntry | src/cli/prerender.ts:226-230 | there is no result exactly when no record is the route's entry; otherwise the result is the first such record in key order |
| ManifestAssets.ClientScriptOfFirstEntry | src/cli/prerender.ts:226-243 | for the first record in key order that is the route's entry, the script is that record's `file` with its resource prefix fixed when the file is present and non-empty, and `null` otherwise |
| ManifestAssets.NoEntryNoScript | src/cli/prerender.ts:233-243 | a route that no record names as its entry gets `null` |
| ManifestAssets.UnreachableCycleAdmitted | src/cli/prerender.ts:256-275 | a manifest with an import cycle the entry cannot reach is handled: only the records the entry reaches need a rank |
| ManifestAssets.ReleaseClientScript | src/cli/prerender.ts:233-243 | server-side, an entry file `resources/x` becomes `${url.resourcesPath}/x` |
| ManifestAssets.FindCssAssets | src/cli/prerender.ts:246-254 | a route without a manifest entry gets the empty text |
| ManifestAssets.AddAllIsDedup | src/cli/prerender.ts:256-262 | adding to an insertion-ordered set keeps each element once, at its first position |
| ManifestAssets.CollectCssAddsDiscovered | src/cli/prerender.ts:259-273 | collection adds, in order, the entry's own stylesheets and then, depth first in listed order, those of every import present in the manifest; missing import keys are skipped |
| ManifestAssets.CollectedStylesheets | src/cli/prerender.ts:256-275 | the collected stylesheets are the discovery sequence with repeats removed: distinct, the same members, and the entry's own list first |
| ManifestAssets.CssAssetsInDiscoveryOrder | src/cli/prerender.ts:246-284 | for a route with an entry, the result is the link tags of the de-duplicated discovery sequence |
| ManifestAssets.LinkTags | src/cli/prerender.ts:277-283 | no files give the empty text; one file gives one `<link rel="stylesheet" href="…" />` with the href's resource prefix fixed |
| ManifestAssets.LinkTagsAppend | src/cli/prerender.ts:277-283 | the tags of two file lists are the tags of each separated by one line break |
| CompiledPaths.RunLength | src/cli/prerender.ts:299 | the longest run of `[a-zA-Z0-9\-_.\/]` characters at the start |
| CompiledPaths.MatchLength | src/cli/prerender.ts:299 | the regex matches at a position exactly when some prefix there is a `"resources/<run>"` literal, and that prefix is unique |
| CompiledPaths.DeadBranch | src/cli/prerender.ts:303-307 | no match starts with `"/resources/`, so that branch of the callback never applies |
| CompiledPaths.FixMatchOfLiteral | src/cli/prerender.ts:302-317 | a match `"resources/<run>"` becomes `` `.${window.ENVIRONMENT?.resourcesPath}/<run>` `` |
| CompiledPaths.LiteralThenRest | src/cli/prerender.ts:299-317 | a match is replaced as a whole and scanning resumes right after it |
| CompiledPaths.QuoteFreePrefix | src/cli/prerender.ts:299-302 | text without a double quote is copied unchanged, whatever follows |
| CompiledPaths.NoMatchPrefix | src/cli/prerender.ts:299-317 | text at none of whose positions the regex matches is copied unchanged, whatever follows: other string literals, a `"resources/` with no closing run, any stray quote |
| CompiledPaths.PlainThenLiteral | src/cli/prerender.ts:299-317 | code without a match, then a match, then more code: the code is copied, the match becomes its template literal, scanning resumes after it |
| CompiledPaths.NoOpeningUnchanged | src/cli/prerender.ts:299-302 | code in which `"resources/` never occurs is left exactly as it was |
| PageTemplates.PageName | src/cli/prerender.ts:74 | the first `.vue` is cut out of the file name, wherever it is; a name without `.vue` is kept |
| PageTemplates.PageNameOfPlainFile | src/cli/prerender.ts:74 | for a file whose only `.vue` is its suffix, the page name is the name without that suffix |
| PageTemplates.PageNameCutsInner | src/cli/prerender.ts:74 | `a.vue-b.vue` gives the page name `a-b.vue`, not `a.vue-b` |
| PageTemplates.EntryFileName | src/cli/prerender.ts:74-75 | the entry module's name is the file name with its first `.vue` cut out, followed by `-entry.ts` (the name itself when it has no `.vue`); for a plain page file that is the stem followed by `-entry.ts` |
| PageTemplates.ComponentImportPath | src/cli/prerender.ts:76-78 | the import path is the relative path with every backslash turned into `/` and every other character kept |
| PageTemplates.EntryFillsFirstMarker | src/cli/prerender.ts:80-84 | only the first `PAGE_COMPONENT_IMPORT` is replaced by the import path; the text around it, later markers included, is kept |
| PageTemplates.EntryWithoutMarker | src/cli/prerender.ts:80-84 | a template without the marker is written unchanged |
| JsValues.Assign | src/cli/prerender.ts:204-209 | a property already present keeps its position and takes the new value; a new property is appended |
| PageTemplates.PayloadAppends | src/cli/prerender.ts:204-209 | with head tags named neither `clientScriptPath` nor `cssLinks`, the payload is the head tags followed by the script path (`null` when absent) and the links |
| PageTemplates.FillFirstMarker | src/cli/prerender.ts:211-215 | a payload property replaces only the first `<!--key-->` with its value's text |
| PageTemplates.FillWithoutMarker | src/cli/prerender.ts:211-215 | a property whose marker is absent leaves the page unchanged |
| PageTemplates.FillConcat | src/cli/prerender.ts:213-215 | properties are applied one after another in payload order |
| PageTemplates.FillTwoMarkers | src/cli/prerender.ts:213-215 | two markers, each the first of its name, are filled in place with their values' texts |
| PageTemplates.PrerenderPage | src/cli/prerender.ts:217-220 | the page file is named route + `.` + the mode's extension, `html` in debug mode and `ftl` otherwise |
| PageTemplates.PageHtmlWithoutEntry | src/cli/prerender.ts:200-215 | for a route the manifest does not know, the page is the template filled with `null` for the script and the empty text for the links |
| PageTemplates.PayloadOfRoute | src/cli/prerender.ts:200-209 | with no head tags the payload is the script path (`null` when there is none), then the links |
| PageTemplates.PageWithEntry | src/cli/prerender.ts:200-215 | for a route whose entry has a non-empty `file`, and a template with the script marker and then the links marker, the page holds the fixed file path where the script belongs and the link tags of the entry's stylesheets in first-discovery order where the links belong |
| PageTemplates.PageWithoutEntry | src/cli/prerender.ts:200-215 | for such a route, and a template with the script marker and then the links marker, the page holds the text `null` where the script path belongs and nothing where the links belong |

## Left out

- The typed RPC layer (`createClient`, `createServer`, `defineMethod`, `defineEvent`) is not part of this model. Its engine and adapters belong to an external package whose source is not available.
- Vite builds, server-side rendering (`renderToString`, `renderSSRHead`), e-mail rendering and dynamic imports are left out. The head tags and the manifest are inputs.
- File-system reads and writes, directory listing, the CLI and `path.resolve`/`path.relative` are left out. A relative path is a given string.
- `useEnvironment`'s SSR/window/DEV branching and the `useHead` call are left out, along with the type-level `FtlTypeMapping`/`EnvironmentType`. DEV and the window are parameters.
- Replacement text containing `$$`, `$&`, `` $` `` or `$'` is not interpreted: replacements are literal. With a string pattern these are the only special forms, so `${…}` text such as `${url.resourcesPath}/` is modelled exactly.
- The `console.log`, `console.warn` and `console.error` diagnostics (src/cli/prerender.ts:30, 69, 223, 250-252 and 321) are output only and are left out; the route without a manifest entry that the diagnostic at 250-252 reports is modelled by its empty result.
- Numbers are integers, and number-to-text conversion is decimal integer text; floating-point formatting is not modelled.
- JavaScript orders integer-like object keys before the others. That reordering is not modelled: key order is the sequence order.
- A custom `formatItem` is any total function from text to text, not arbitrary JavaScript.
- The manifest's prototype properties (`ctx.manifest["toString"]` and the like) are not modelled; only the manifest's own keys exist.
- ManifestAssets.CollectCssAddsDiscovered: the source recurses without a visited set, so an import cycle reachable from the route's entry recurses until the JavaScript stack overflows with a `RangeError`. The model requires a rank on the reachable records (`Ranked`, `EntryRanked`), so that case is outside its domain; cycles the entry cannot reach are covered.
- ManifestAssets.FindCssAssets and PageTemplates.PrerenderPage: the same requirement applies, so a manifest with a cycle reachable from the route's entry, where the source throws, is not modelled.
- ManifestAssets.FindCssAssets: its own contract states only the case of a route without an entry. The case with an entry is stated by `CssAssetsInDiscoveryOrder`.
- ResourcePaths.FixResourcesPath: its own contract states only the unchanged case. The rewritten cases are stated by `InertPrefixRewritesOnce`, `ReleasePrefix` and `ChainedRewrite`.
- ResourcePaths.DebugPrefixInert: it covers routes not starting with `assets`. Among the others, only the route `assets` itself is worked out (`ChainedRewrite`).
- EnvProperties.ListFallback: it fixes the fallback half of the rendered text and leaves the `<#list>` half existential. `MissingListDefault` spells out that half for `string[]`.
- PageTemplates.PrerenderPage: its contract states the file name. The page text is stated by `PageWithEntry`, for a route whose entry has a non-empty `file`, and by `PageHtmlWithoutEntry` and `PageWithoutEntry`, for a route without an entry. A route whose entry has no `file` is covered only through `PayloadOfRoute` and the `Fill…` lemmas.
