/** The text substitutions of the prerender step: the per-page entry module made from
    the TypeScript template, the page file name, and the HTML template filled with the
    head tags, the client script path and the stylesheet links. */
module PageTemplates {
  import opened Wrappers
  import opened Strings
  import opened JsValues
  import opened ResourcePaths
  import opened ManifestAssets

  const VueExtension: string := ".vue"
  const EntrySuffix: string := "-entry.ts"
  const ComponentMarker: string := "PAGE_COMPONENT_IMPORT"
  const ClientScriptKey: string := "clientScriptPath"
  const CssLinksKey: string := "cssLinks"

  predicate EndsWith(s: string, suffix: string) {
    |suffix| <= |s| && s[|s| - |suffix|..] == suffix
  }

  /** `pageFileName.replace(".vue", "")`: removes the FIRST `.vue`, wherever it is. */
  function PageName(file: string): (r: string)
    ensures (forall j :: !OccursAt(file, VueExtension, j)) ==> r == file
    ensures forall i :: FirstOccurrence(file, VueExtension, i) ==> r == file[..i] + file[i + |VueExtension|..]
  {
    ReplaceFirst(file, VueExtension, "")
  }

  /** The name without its final `.vue` (page files are selected by that suffix), the
      reference the page name is compared with. */
  function PageStem(file: string): (r: string)
    requires EndsWith(file, VueExtension)
    ensures r + VueExtension == file
  {
    file[..|file| - |VueExtension|]
  }

  /** The two agree whenever `.vue` occurs in the file name only as its suffix. */
  lemma PageNameOfPlainFile(file: string)
    requires EndsWith(file, VueExtension)
    requires FirstOccurrence(file, VueExtension, |file| - |VueExtension|)
    ensures PageName(file) == PageStem(file)
  {
    assert file[|file|..] == [];
  }

  /** A file name with `.vue` inside it: the first `.vue` is cut out of the middle and
      the suffix stays. */
  lemma PageNameCutsInner()
    ensures EndsWith("a.vue-b.vue", VueExtension)
    ensures PageName("a.vue-b.vue") == "a-b.vue"
    ensures PageStem("a.vue-b.vue") == "a.vue-b"
  {
    var f := "a.vue-b.vue";
    assert f[1..5] == VueExtension;
    assert f[0] != VueExtension[0];
    assert FirstOccurrence(f, VueExtension, 1);
    assert f[..1] + f[5..] == "a-b.vue";
  }

  /** `${pageName}-entry.ts`, the name of the generated entry module of a page file;
      for a file whose only `.vue` is its suffix, the stem followed by `-entry.ts`. */
  function EntryFileName(file: string): (r: string)
    ensures EndsWith(r, EntrySuffix)
    ensures (forall j :: !OccursAt(file, VueExtension, j)) ==> r == file + EntrySuffix
    ensures forall i :: FirstOccurrence(file, VueExtension, i) ==> r == file[..i] + file[i + |VueExtension|..] + EntrySuffix
    ensures EndsWith(file, VueExtension) && FirstOccurrence(file, VueExtension, |file| - |VueExtension|)
            ==> r == file[..|file| - |VueExtension|] + EntrySuffix
  {
    var r := PageName(file) + EntrySuffix;
    assert r[|r| - |EntrySuffix|..] == EntrySuffix;
    assert EndsWith(file, VueExtension) && FirstOccurrence(file, VueExtension, |file| - |VueExtension|)
           ==> PageName(file) == PageStem(file) by {
      if EndsWith(file, VueExtension) && FirstOccurrence(file, VueExtension, |file| - |VueExtension|) {
        PageNameOfPlainFile(file);
      }
    }
    r
  }

  /** The import path of the page component: the relative path with every backslash
      turned into a slash. The relative path itself is computed by the platform's
      path library and is a parameter here. */
  function ComponentImportPath(relative: string): (r: string)
    ensures |r| == |relative| && '\\' !in r
    ensures forall i :: 0 <= i < |r| && relative[i] != '\\' ==> r[i] == relative[i]
    ensures forall i :: 0 <= i < |r| && relative[i] == '\\' ==> r[i] == '/'
  {
    ReplaceAllChar(relative, '\\', '/')
  }

  /** `generateEntryForPage`: the TypeScript template with its first
      `PAGE_COMPONENT_IMPORT` replaced by the component's import path. */
  function GenerateEntry(template: string, relative: string): (r: string)
  {
    ReplaceFirst(template, ComponentMarker, ComponentImportPath(relative))
  }

  /** A template whose first marker is at `|pre|` becomes `pre`, the import path, and
      the rest of the template, where later markers stay as they are. */
  lemma EntryFillsFirstMarker(pre: string, post: string, relative: string)
    requires NoneBefore(pre + ComponentMarker + post, ComponentMarker, |pre|)
    ensures GenerateEntry(pre + ComponentMarker + post, relative) == pre + ComponentImportPath(relative) + post
  {
    var t := pre + ComponentMarker + post;
    assert t[|pre|..|pre| + |ComponentMarker|] == ComponentMarker;
    assert FirstOccurrence(t, ComponentMarker, |pre|);
    assert t[..|pre|] == pre;
    assert t[|pre| + |ComponentMarker|..] == post;
  }

  /** A template without the marker is written unchanged. */
  lemma EntryWithoutMarker(template: string, relative: string)
    requires forall j :: !OccursAt(template, ComponentMarker, j)
    ensures GenerateEntry(template, relative) == template
  {
  }

  /** `<!--key-->`, the marker a payload property fills. */
  function Marker(key: string): (r: string)
    ensures |r| == |key| + 7 && r[4..|r| - 3] == key
  {
    "<!--" + key + "-->"
  }

  type Payload = seq<(string, Value)>

  predicate DistinctKeys<V>(props: seq<(string, V)>) {
    forall i, j :: 0 <= i < j < |props| ==> props[i].0 != props[j].0
  }

  function HeadProps(head: seq<(string, string)>): (r: Payload)
    ensures |r| == |head|
    ensures forall i :: 0 <= i < |head| ==> r[i] == (head[i].0, Str(head[i].1))
  {
    seq(|head|, i requires 0 <= i < |head| => (head[i].0, Str(head[i].1)))
  }

  /** `{ ...headPayload, clientScriptPath, cssLinks }`: the head properties, then the
      client script (`null` when there is none) and the stylesheet links; a head
      property of the same name keeps its place and takes the new value. */
  function PagePayload(head: seq<(string, string)>, clientScript: Option<string>, cssLinks: string): (r: Payload)
  {
    var script := match clientScript case Some(p) => Str(p) case None => NullV;
    Assign(Assign(HeadProps(head), ClientScriptKey, script), CssLinksKey, Str(cssLinks))
  }

  /** With a head that has neither name, the two properties come last, script first. */
  lemma PayloadAppends(head: seq<(string, string)>, clientScript: Option<string>, cssLinks: string)
    requires forall i :: 0 <= i < |head| ==> head[i].0 != ClientScriptKey && head[i].0 != CssLinksKey
    ensures PagePayload(head, clientScript, cssLinks)
            == HeadProps(head) + [(ClientScriptKey, if clientScript.Some? then Str(clientScript.value) else NullV),
                                  (CssLinksKey, Str(cssLinks))]
  {
    var script := if clientScript.Some? then Str(clientScript.value) else NullV;
    var p1 := Assign(HeadProps(head), ClientScriptKey, script);
    assert p1 == HeadProps(head) + [(ClientScriptKey, script)];
    assert forall i :: 0 <= i < |p1| ==> p1[i].0 != CssLinksKey by {
      assert ClientScriptKey != CssLinksKey;
    }
  }

  /** `Object.entries(payload).forEach(([key, value]) => html = html.replace(`<!--${key}-->`, value))`:
      each property, in order, replaces the first marker of its name with its value's
      text. */
  function FillTemplate(html: string, payload: Payload): string
    decreases |payload|
  {
    if |payload| == 0 then html
    else FillTemplate(ReplaceFirst(html, Marker(payload[0].0), Interpolate(payload[0].1)), payload[1..])
  }

  /** Filling with two payloads in turn is filling with their concatenation. */
  lemma {:induction false} FillConcat(html: string, a: Payload, b: Payload)
    ensures FillTemplate(html, a + b) == FillTemplate(FillTemplate(html, a), b)
    decreases |a|
  {
    if |a| == 0 {
      assert a + b == b;
    } else {
      assert (a + b)[0] == a[0];
      assert (a + b)[1..] == a[1..] + b;
      FillConcat(ReplaceFirst(html, Marker(a[0].0), Interpolate(a[0].1)), a[1..], b);
    }
  }

  /** One property fills the first marker of its name; a later marker of the same name
      stays in the page. */
  lemma FillFirstMarker(pre: string, post: string, key: string, v: Value)
    requires NoneBefore(pre + Marker(key) + post, Marker(key), |pre|)
    ensures FillTemplate(pre + Marker(key) + post, [(key, v)]) == pre + Interpolate(v) + post
  {
    var t := pre + Marker(key) + post;
    var mk := Marker(key);
    assert t[|pre|..|pre| + |mk|] == mk;
    assert FirstOccurrence(t, mk, |pre|);
    assert t[..|pre|] == pre;
    assert t[|pre| + |mk|..] == post;
    assert [(key, v)][1..] == [];
  }

  /** A property whose marker is not in the page leaves it unchanged. */
  lemma FillWithoutMarker(html: string, key: string, v: Value)
    requires forall j :: !OccursAt(html, Marker(key), j)
    ensures FillTemplate(html, [(key, v)]) == html
  {
    assert [(key, v)][1..] == [];
  }

  /** The extension of the written page: HTML while debugging, a FreeMarker template
      for the theme otherwise. */
  function PageExtension(debug: bool): (r: string)
    ensures debug <==> r == "html"
    ensures !debug <==> r == "ftl"
  {
    if debug then "html" else "ftl"
  }

  datatype Page = Page(fileName: string, html: string)

  /** `prerenderPage` after server rendering: the head tags, client script and
      stylesheet links of the route fill the HTML template, and the page is named
      after the route with the mode's extension. */
  function PrerenderPage(template: string, head: seq<(string, string)>, m: Manifest, ghost rank: map<string, nat>,
                         routePath: string, debug: bool, w: Window): (r: Page)
    requires Valid(m) && Ranked(m, rank) && EntryRanked(m, rank, routePath)
    ensures r.fileName == routePath + "." + PageExtension(debug)
  {
    var payload := PagePayload(head, FindClientScript(m, routePath, debug, w), FindCssAssets(m, rank, routePath, debug, w));
    Page(routePath + "." + PageExtension(debug), FillTemplate(template, payload))
  }

  /** No occurrence of `pat` in `s` starts before position `n`. */
  predicate NoneBefore(s: string, pat: string, n: int) {
    forall j :: 0 <= j < n ==> !OccursAt(s, pat, j)
  }

  /** A route the manifest does not know gets no client script and no stylesheets. */
  lemma PayloadWithoutEntry(m: Manifest, rank: map<string, nat>, routePath: string, debug: bool, w: Window)
    requires Valid(m) && Ranked(m, rank) && EntryRanked(m, rank, routePath)
    requires FindManifestEntry(m, routePath).None?
    ensures PagePayload([], FindClientScript(m, routePath, debug, w), FindCssAssets(m, rank, routePath, debug, w))
            == [(ClientScriptKey, NullV), (CssLinksKey, Str(""))]
  {
    PayloadAppends([], None, "");
  }

  lemma Regroup(a: string, b: string, c: string, d: string, e: string)
    ensures a + b + c + d + e == (a + b) + (c + d + e)
    ensures a + b + c + d + e == (a + b + c) + d + e
  {
  }

  /** The first of two markers is filled. */
  lemma FillFirstOfTwo(pre: string, mid: string, post: string, k1: string, v1: Value, k2: string)
    requires NoneBefore(pre + Marker(k1) + mid + Marker(k2) + post, Marker(k1), |pre|)
    ensures FillTemplate(pre + Marker(k1) + mid + Marker(k2) + post, [(k1, v1)])
            == pre + Interpolate(v1) + mid + Marker(k2) + post
  {
    Regroup(pre, Marker(k1), mid, Marker(k2), post);
    Regroup(pre, Interpolate(v1), mid, Marker(k2), post);
    FillFirstMarker(pre, mid + Marker(k2) + post, k1, v1);
  }

  /** Then the second. */
  lemma FillSecondOfTwo(pre: string, text1: string, mid: string, post: string, k2: string, v2: Value)
    requires NoneBefore(pre + text1 + mid + Marker(k2) + post, Marker(k2), |pre + text1 + mid|)
    ensures FillTemplate(pre + text1 + mid + Marker(k2) + post, [(k2, v2)])
            == pre + text1 + mid + Interpolate(v2) + post
  {
    Regroup(pre, text1, mid, Marker(k2), post);
    Regroup(pre, text1, mid, Interpolate(v2), post);
    FillFirstMarker(pre + text1 + mid, post, k2, v2);
  }

  /** Filling two markers, each the first of its name, in page order. */
  lemma FillTwoMarkers(pre: string, mid: string, post: string, k1: string, v1: Value, k2: string, v2: Value)
    requires NoneBefore(pre + Marker(k1) + mid + Marker(k2) + post, Marker(k1), |pre|)
    requires NoneBefore(pre + Interpolate(v1) + mid + Marker(k2) + post, Marker(k2), |pre + Interpolate(v1) + mid|)
    ensures FillTemplate(pre + Marker(k1) + mid + Marker(k2) + post, [(k1, v1), (k2, v2)])
            == pre + Interpolate(v1) + mid + Interpolate(v2) + post
  {
    FillFirstOfTwo(pre, mid, post, k1, v1, k2);
    FillSecondOfTwo(pre, Interpolate(v1), mid, post, k2, v2);
    assert [(k1, v1)] + [(k2, v2)] == [(k1, v1), (k2, v2)];
    FillConcat(pre + Marker(k1) + mid + Marker(k2) + post, [(k1, v1)], [(k2, v2)]);
  }

  /** The page of a route the manifest does not know is the template filled with
      `null` for the script and nothing for the stylesheets. */
  lemma PageHtmlWithoutEntry(template: string, m: Manifest, rank: map<string, nat>, routePath: string, debug: bool, w: Window)
    requires Valid(m) && Ranked(m, rank) && EntryRanked(m, rank, routePath)
    requires FindManifestEntry(m, routePath).None?
    ensures PrerenderPage(template, [], m, rank, routePath, debug, w).html
            == FillTemplate(template, [(ClientScriptKey, NullV), (CssLinksKey, Str(""))])
  {
    PayloadWithoutEntry(m, rank, routePath, debug, w);
  }

  /** A route the manifest does not know: with no head tags and a template holding
      the script marker and then the stylesheet marker, the page carries the text of
      `null` (that is, `null`) where the script path belongs and the empty text where
      the links belong. */
  lemma PageWithoutEntry(pre: string, mid: string, post: string, m: Manifest, rank: map<string, nat>,
                         routePath: string, debug: bool, w: Window)
    requires Valid(m) && Ranked(m, rank) && EntryRanked(m, rank, routePath)
    requires FindManifestEntry(m, routePath).None?
    requires NoneBefore(pre + Marker(ClientScriptKey) + mid + Marker(CssLinksKey) + post, Marker(ClientScriptKey), |pre|)
    requires NoneBefore(pre + Interpolate(NullV) + mid + Marker(CssLinksKey) + post, Marker(CssLinksKey), |pre + Interpolate(NullV) + mid|)
    ensures PrerenderPage(pre + Marker(ClientScriptKey) + mid + Marker(CssLinksKey) + post, [], m, rank, routePath, debug, w).html
            == pre + Interpolate(NullV) + mid + Interpolate(Str("")) + post
  {
    var template := pre + Marker(ClientScriptKey) + mid + Marker(CssLinksKey) + post;
    PageHtmlWithoutEntry(template, m, rank, routePath, debug, w);
    FillTwoMarkers(pre, mid, post, ClientScriptKey, NullV, CssLinksKey, Str(""));
  }

  /** The page payload of any route, with no head tags: the script path (`null`
      when there is none) and then the stylesheet links. */
  lemma PayloadOfRoute(m: Manifest, rank: map<string, nat>, routePath: string, debug: bool, w: Window)
    requires Valid(m) && Ranked(m, rank) && EntryRanked(m, rank, routePath)
    ensures var script := FindClientScript(m, routePath, debug, w);
            PagePayload([], script, FindCssAssets(m, rank, routePath, debug, w))
              == [(ClientScriptKey, if script.Some? then Str(script.value) else NullV),
                  (CssLinksKey, Str(FindCssAssets(m, rank, routePath, debug, w)))]
  {
    PayloadAppends([], FindClientScript(m, routePath, debug, w), FindCssAssets(m, rank, routePath, debug, w));
  }

  /** A route whose first entry record has a non-empty `file`: with no head tags and a
      template holding the script marker and then the stylesheet marker, the page
      carries that file with its resource prefix fixed where the script path belongs,
      and the link tags of the entry's stylesheets, in first-discovery order, where
      the links belong. */
  lemma PageWithEntry(pre: string, mid: string, post: string, m: Manifest, rank: map<string, nat>,
                      routePath: string, debug: bool, w: Window)
    requires Valid(m) && Ranked(m, rank) && EntryRanked(m, rank, routePath)
    requires var e := FindEntryIndex(m, routePath, 0);
             e.Some? && m.chunks[m.keys[e.value]].file.Some? && m.chunks[m.keys[e.value]].file.value != ""
    requires NoneBefore(pre + Marker(ClientScriptKey) + mid + Marker(CssLinksKey) + post, Marker(ClientScriptKey), |pre|)
    requires var script := FixResourcesPath(debug, m.chunks[m.keys[FindEntryIndex(m, routePath, 0).value]].file.value, routePath, w);
             NoneBefore(pre + script + mid + Marker(CssLinksKey) + post, Marker(CssLinksKey), |pre + script + mid|)
    ensures var k := m.keys[FindEntryIndex(m, routePath, 0).value];
            PrerenderPage(pre + Marker(ClientScriptKey) + mid + Marker(CssLinksKey) + post, [], m, rank, routePath, debug, w).html
              == pre + FixResourcesPath(debug, m.chunks[k].file.value, routePath, w) + mid
                 + LinkTags(Dedup(Discovered(m, rank, m.chunks[k], rank[k])), routePath, debug, w) + post
  {
    var k := m.keys[FindEntryIndex(m, routePath, 0).value];
    var script := FixResourcesPath(debug, m.chunks[k].file.value, routePath, w);
    assert FindClientScript(m, routePath, debug, w) == Some(script);
    CssAssetsInDiscoveryOrder(m, rank, routePath, debug, w);
    PageOfScript(pre, mid, post, m, rank, routePath, debug, w, script);
  }

  /** The page of a route with a client script, stated over the script and links. */
  lemma PageOfScript(pre: string, mid: string, post: string, m: Manifest, rank: map<string, nat>,
                     routePath: string, debug: bool, w: Window, script: string)
    requires Valid(m) && Ranked(m, rank) && EntryRanked(m, rank, routePath)
    requires FindClientScript(m, routePath, debug, w) == Some(script)
    requires NoneBefore(pre + Marker(ClientScriptKey) + mid + Marker(CssLinksKey) + post, Marker(ClientScriptKey), |pre|)
    requires NoneBefore(pre + script + mid + Marker(CssLinksKey) + post, Marker(CssLinksKey), |pre + script + mid|)
    ensures PrerenderPage(pre + Marker(ClientScriptKey) + mid + Marker(CssLinksKey) + post, [], m, rank, routePath, debug, w).html
            == pre + script + mid + FindCssAssets(m, rank, routePath, debug, w) + post
  {
    var css := FindCssAssets(m, rank, routePath, debug, w);
    var template := pre + Marker(ClientScriptKey) + mid + Marker(CssLinksKey) + post;
    PageHtmlOfScript(template, m, rank, routePath, debug, w, script);
    FillScriptAndLinks(pre, mid, post, script, css);
  }

  lemma PageHtmlOfScript(template: string, m: Manifest, rank: map<string, nat>,
                         routePath: string, debug: bool, w: Window, script: string)
    requires Valid(m) && Ranked(m, rank) && EntryRanked(m, rank, routePath)
    requires FindClientScript(m, routePath, debug, w) == Some(script)
    ensures PrerenderPage(template, [], m, rank, routePath, debug, w).html
            == FillTemplate(template, [(ClientScriptKey, Str(script)),
                                       (CssLinksKey, Str(FindCssAssets(m, rank, routePath, debug, w)))])
  {
    PayloadOfRoute(m, rank, routePath, debug, w);
  }

  lemma FillScriptAndLinks(pre: string, mid: string, post: string, script: string, css: string)
    requires NoneBefore(pre + Marker(ClientScriptKey) + mid + Marker(CssLinksKey) + post, Marker(ClientScriptKey), |pre|)
    requires NoneBefore(pre + script + mid + Marker(CssLinksKey) + post, Marker(CssLinksKey), |pre + script + mid|)
    ensures FillTemplate(pre + Marker(ClientScriptKey) + mid + Marker(CssLinksKey) + post,
                         [(ClientScriptKey, Str(script)), (CssLinksKey, Str(css))])
            == pre + script + mid + css + post
  {
    assert Interpolate(Str(script)) == script;
    assert Interpolate(Str(css)) == css;
    FillTwoMarkers(pre, mid, post, ClientScriptKey, Str(script), CssLinksKey, Str(css));
  }
}
