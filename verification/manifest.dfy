/** The prerender step's reading of the bundler manifest: finding a page's entry
    chunk, the client script it loads, and every stylesheet reachable through its
    static imports, rendered as `<link>` tags. */
module ManifestAssets {
  import opened Wrappers
  import opened Strings
  import opened ResourcePaths
  import JsValues

  /** One manifest record; absent JSON properties are `false`/`None`. */
  datatype Chunk = Chunk(isEntry: bool, name: Option<string>, file: Option<string>,
                         css: Option<seq<string>>, imports: Option<seq<string>>)

  /** The parsed manifest: its keys in enumeration order and the record under each. */
  datatype Manifest = Manifest(keys: seq<string>, chunks: map<string, Chunk>)

  /** The keys list is exactly the map's keys, each once — true of any parsed object. */
  predicate Valid(m: Manifest) {
    && (forall i :: 0 <= i < |m.keys| ==> m.keys[i] in m.chunks)
    && (forall k :: k in m.chunks ==> k in m.keys)
    && (forall i, j :: 0 <= i < j < |m.keys| ==> m.keys[i] != m.keys[j])
  }

  /** `v.isEntry === true && v.name === routePath` */
  predicate IsRouteEntry(c: Chunk, routePath: string) {
    c.isEntry && c.name == Some(routePath)
  }

  /** The position, at or after `from`, of the first key whose record is the route's entry. */
  function FindEntryIndex(m: Manifest, routePath: string, from: nat): (r: Option<nat>)
    requires Valid(m)
    decreases |m.keys| - from
    ensures r.Some? ==> from <= r.value < |m.keys| && IsRouteEntry(m.chunks[m.keys[r.value]], routePath)
    ensures r.Some? ==> forall j :: from <= j < r.value ==> !IsRouteEntry(m.chunks[m.keys[j]], routePath)
    ensures r.None? ==> forall j :: from <= j < |m.keys| ==> !IsRouteEntry(m.chunks[m.keys[j]], routePath)
  {
    if from >= |m.keys| then None
    else if IsRouteEntry(m.chunks[m.keys[from]], routePath) then Some(from)
    else FindEntryIndex(m, routePath, from + 1)
  }

  /** `findManifestEntry`: the first record, in key order, that is the route's entry. */
  function FindManifestEntry(m: Manifest, routePath: string): (r: Option<Chunk>)
    requires Valid(m)
    ensures r.None? <==> forall k :: k in m.chunks ==> !IsRouteEntry(m.chunks[k], routePath)
    ensures r.Some? ==> exists i :: 0 <= i < |m.keys| && r.value == m.chunks[m.keys[i]]
                                   && IsRouteEntry(r.value, routePath)
                                   && forall j :: 0 <= j < i ==> !IsRouteEntry(m.chunks[m.keys[j]], routePath)
  {
    match FindEntryIndex(m, routePath, 0)
    case None =>
      assert forall k :: k in m.chunks ==> exists i :: 0 <= i < |m.keys| && m.keys[i] == k;
      None
    case Some(i) => Some(m.chunks[m.keys[i]])
  }

  /** `findClientScript`: the entry's `file` (when present and non-empty) with its
      resource prefix fixed, or `null`. */
  function FindClientScript(m: Manifest, routePath: string, debug: bool, w: Window): (r: Option<string>)
    requires Valid(m)
    ensures r.Some? <==> (var e := FindManifestEntry(m, routePath);
                          e.Some? && e.value.file.Some? && e.value.file.value != "")
    ensures r.Some? ==> r.value == FixResourcesPath(debug, FindManifestEntry(m, routePath).value.file.value, routePath, w)
  {
    match FindManifestEntry(m, routePath)
    case Some(entry) =>
      if entry.file.Some? && entry.file.value != "" then Some(FixResourcesPath(debug, entry.file.value, routePath, w))
      else None
    case None => None
  }

  function CssList(c: Chunk): seq<string> {
    if c.css.Some? then c.css.value else []
  }

  function ImportList(c: Chunk): seq<string> {
    if c.imports.Some? then c.imports.value else []
  }

  /** The records named in `rank` form an import-closed part of the manifest without
      cycles: every import of a ranked record that names a record is ranked, strictly
      lower. `collectCSS` keeps no visited set, so it ends only when the imports
      reachable from the entry have no cycle, which is exactly when a rank covering
      the entry exists. Records the entry cannot reach need no rank. */
  ghost predicate Ranked(m: Manifest, rank: map<string, nat>) {
    forall k :: k in rank && k in m.chunks ==> ImportsBelow(m, rank, ImportList(m.chunks[k]), rank[k])
  }

  /** A manifest holding an import cycle the entry cannot reach is still in the
      model's domain: only the entry's record needs a rank. */
  lemma UnreachableCycleAdmitted(m: Manifest, rank: map<string, nat>)
    requires m == Manifest(["a", "b", "e"],
                           map["a" := Chunk(false, None, Some("a.js"), None, Some(["b"])),
                               "b" := Chunk(false, None, Some("b.js"), None, Some(["a"])),
                               "e" := Chunk(true, Some("home"), Some("e.js"), Some(["e.css"]), None)])
    requires rank == map["e" := 0]
    ensures "b" in ImportList(m.chunks["a"]) && "a" in ImportList(m.chunks["b"])
    ensures Valid(m) && Ranked(m, rank) && EntryRanked(m, rank, "home")
  {
    assert FindEntryIndex(m, "home", 0) == Some(2) by {
      assert !IsRouteEntry(m.chunks[m.keys[0]], "home");
      assert !IsRouteEntry(m.chunks[m.keys[1]], "home");
      assert IsRouteEntry(m.chunks[m.keys[2]], "home");
    }
  }

  /** The route's entry record, when there is one, is ranked. */
  ghost predicate EntryRanked(m: Manifest, rank: map<string, nat>, routePath: string)
    requires Valid(m)
  {
    var e := FindEntryIndex(m, routePath, 0);
    e.Some? ==> m.keys[e.value] in rank
  }

  ghost predicate ImportsBelow(m: Manifest, rank: map<string, nat>, imports: seq<string>, bound: nat) {
    forall j :: j in imports && j in m.chunks ==> j in rank && rank[j] < bound
  }

  /** `cssFiles.add(x)` on an insertion-ordered set. */
  function OrderedAdd(acc: seq<string>, x: string): (r: seq<string>)
    ensures x in r
  {
    if x in acc then acc else acc + [x]
  }

  /** `xs.forEach(x => cssFiles.add(x))` */
  function AddAll(acc: seq<string>, xs: seq<string>): seq<string>
    decreases xs
  {
    if |xs| == 0 then acc else AddAll(OrderedAdd(acc, xs[0]), xs[1..])
  }

  /** `collectCSS(entry)`: the entry's own stylesheets, then each import that names a
      record, depth first in listed order. */
  function CollectCss(m: Manifest, ghost rank: map<string, nat>, c: Chunk, ghost bound: nat, acc: seq<string>): seq<string>
    requires Ranked(m, rank) && ImportsBelow(m, rank, ImportList(c), bound)
    decreases bound, 1
  {
    CollectImports(m, rank, ImportList(c), bound, AddAll(acc, CssList(c)))
  }

  function CollectImports(m: Manifest, ghost rank: map<string, nat>, imports: seq<string>, ghost bound: nat,
                          acc: seq<string>): seq<string>
    requires Ranked(m, rank) && ImportsBelow(m, rank, imports, bound)
    decreases bound, 0, |imports|
  {
    if |imports| == 0 then acc
    else
      var j := imports[0];
      var acc' := if j in m.chunks then CollectCss(m, rank, m.chunks[j], rank[j], acc) else acc;
      CollectImports(m, rank, imports[1..], bound, acc')
  }

  /** Every stylesheet in discovery order, repeats included: the reference the
      collected set is compared with. */
  ghost function Discovered(m: Manifest, rank: map<string, nat>, c: Chunk, bound: nat): seq<string>
    requires Ranked(m, rank) && ImportsBelow(m, rank, ImportList(c), bound)
    decreases bound, 1
  {
    CssList(c) + DiscoveredImports(m, rank, ImportList(c), bound)
  }

  ghost function DiscoveredImports(m: Manifest, rank: map<string, nat>, imports: seq<string>, bound: nat): seq<string>
    requires Ranked(m, rank) && ImportsBelow(m, rank, imports, bound)
    decreases bound, 0, |imports|
  {
    if |imports| == 0 then []
    else
      var j := imports[0];
      (if j in m.chunks then Discovered(m, rank, m.chunks[j], rank[j]) else [])
      + DiscoveredImports(m, rank, imports[1..], bound)
  }

  /** Keeps the first occurrence of every element, in order. */
  function Dedup(s: seq<string>): seq<string> {
    if |s| == 0 then []
    else
      var init := s[..|s| - 1];
      var last := s[|s| - 1];
      Dedup(init) + (if last in init then [] else [last])
  }

  predicate Distinct(s: seq<string>) {
    forall i, j :: 0 <= i < j < |s| ==> s[i] != s[j]
  }

  /** `<link rel="stylesheet" href="…" />` */
  function LinkTag(href: string): string {
    "<link rel=\"stylesheet\" href=\"" + href + "\" />"
  }

  /** One link tag per file, its href passed through the resource-path rewrite, the
      tags separated by line breaks. */
  function LinkTags(files: seq<string>, routePath: string, debug: bool, w: Window): (r: string)
    ensures |files| == 0 ==> r == ""
    ensures |files| == 1 ==> r == LinkTag(FixResourcesPath(debug, files[0], routePath, w))
  {
    Join(Tags(files, routePath, debug, w), "\n")
  }

  function Tags(files: seq<string>, routePath: string, debug: bool, w: Window): (r: seq<string>)
    ensures |r| == |files|
    ensures forall i :: 0 <= i < |files| ==> r[i] == LinkTag(FixResourcesPath(debug, files[i], routePath, w))
  {
    seq(|files|, i requires 0 <= i < |files| => LinkTag(FixResourcesPath(debug, files[i], routePath, w)))
  }

  /** `findCSSAssets`: the link tags of every stylesheet the route's entry reaches, or
      nothing when the route has no entry. */
  function FindCssAssets(m: Manifest, ghost rank: map<string, nat>, routePath: string, debug: bool, w: Window): (r: string)
    requires Valid(m) && Ranked(m, rank) && EntryRanked(m, rank, routePath)
    ensures FindManifestEntry(m, routePath).None? ==> r == ""
  {
    match FindEntryIndex(m, routePath, 0)
    case None => ""
    case Some(i) =>
      var k := m.keys[i];
      LinkTags(CollectCss(m, rank, m.chunks[k], rank[k], []), routePath, debug, w)
  }

  lemma {:induction false} AddAllConcat(acc: seq<string>, xs: seq<string>, ys: seq<string>)
    ensures AddAll(AddAll(acc, xs), ys) == AddAll(acc, xs + ys)
    decreases xs
  {
    if |xs| > 0 {
      assert (xs + ys)[0] == xs[0];
      assert (xs + ys)[1..] == xs[1..] + ys;
      AddAllConcat(OrderedAdd(acc, xs[0]), xs[1..], ys);
    } else {
      assert xs + ys == ys;
    }
  }

  lemma {:induction false} AddAllMembers(acc: seq<string>, xs: seq<string>)
    ensures forall x :: x in AddAll(acc, xs) <==> x in acc || x in xs
    decreases xs
  {
    if |xs| > 0 {
      AddAllMembers(OrderedAdd(acc, xs[0]), xs[1..]);
      assert xs == [xs[0]] + xs[1..];
    }
  }

  /** The accumulating traversal adds exactly the discovered stylesheets, in discovery
      order, to what was collected before. */
  lemma {:induction false} CollectCssAddsDiscovered(m: Manifest, rank: map<string, nat>, c: Chunk, bound: nat,
                                                    acc: seq<string>)
    requires Ranked(m, rank) && ImportsBelow(m, rank, ImportList(c), bound)
    ensures CollectCss(m, rank, c, bound, acc) == AddAll(acc, Discovered(m, rank, c, bound))
    decreases bound, 1
  {
    CollectImportsAddsDiscovered(m, rank, ImportList(c), bound, AddAll(acc, CssList(c)));
    AddAllConcat(acc, CssList(c), DiscoveredImports(m, rank, ImportList(c), bound));
  }

  lemma {:induction false} CollectImportsAddsDiscovered(m: Manifest, rank: map<string, nat>, imports: seq<string>,
                                                        bound: nat, acc: seq<string>)
    requires Ranked(m, rank) && ImportsBelow(m, rank, imports, bound)
    ensures CollectImports(m, rank, imports, bound, acc) == AddAll(acc, DiscoveredImports(m, rank, imports, bound))
    decreases bound, 0, |imports|
  {
    if |imports| > 0 {
      var j := imports[0];
      var first := if j in m.chunks then Discovered(m, rank, m.chunks[j], rank[j]) else [];
      var acc' := if j in m.chunks then CollectCss(m, rank, m.chunks[j], rank[j], acc) else acc;
      if j in m.chunks {
        CollectCssAddsDiscovered(m, rank, m.chunks[j], rank[j], acc);
      }
      assert acc' == AddAll(acc, first);
      CollectImportsAddsDiscovered(m, rank, imports[1..], bound, acc');
      AddAllConcat(acc, first, DiscoveredImports(m, rank, imports[1..], bound));
    }
  }

  /** Adding to an initially empty insertion-ordered set keeps first occurrences. */
  lemma {:induction false} AddAllIsDedup(s: seq<string>)
    ensures AddAll([], s) == Dedup(s)
    decreases |s|
  {
    if |s| > 0 {
      var init := s[..|s| - 1];
      var last := s[|s| - 1];
      assert s == init + [last];
      AddAllIsDedup(init);
      AddAllConcat([], init, [last]);
      AddAllMembers([], init);
    }
  }

  lemma {:induction false} DedupMembersDistinct(s: seq<string>)
    ensures forall x :: x in Dedup(s) <==> x in s
    ensures Distinct(Dedup(s))
    decreases |s|
  {
    if |s| > 0 {
      var init := s[..|s| - 1];
      assert s == init + [s[|s| - 1]];
      DedupMembersDistinct(init);
    }
  }

  lemma {:induction false} DedupPrefix(a: seq<string>, b: seq<string>)
    ensures Dedup(a) <= Dedup(a + b)
    decreases |b|
  {
    if |b| == 0 {
      assert a + b == a;
    } else {
      var b' := b[..|b| - 1];
      assert (a + b)[..|a + b| - 1] == a + b';
      DedupPrefix(a, b');
    }
  }

  /** The stylesheets `collectCSS` gathers from an entry: each discovered file once,
      at its first discovery position, with the entry's own `css` list first. */
  lemma CollectedStylesheets(m: Manifest, rank: map<string, nat>, c: Chunk, bound: nat)
    requires Ranked(m, rank) && ImportsBelow(m, rank, ImportList(c), bound)
    ensures CollectCss(m, rank, c, bound, []) == Dedup(Discovered(m, rank, c, bound))
    ensures Distinct(CollectCss(m, rank, c, bound, []))
    ensures forall x :: x in CollectCss(m, rank, c, bound, []) <==> x in Discovered(m, rank, c, bound)
    ensures Dedup(CssList(c)) <= CollectCss(m, rank, c, bound, [])
  {
    CollectCssAddsDiscovered(m, rank, c, bound, []);
    AddAllIsDedup(Discovered(m, rank, c, bound));
    DedupMembersDistinct(Discovered(m, rank, c, bound));
    DedupPrefix(CssList(c), DiscoveredImports(m, rank, ImportList(c), bound));
  }

  /** `findCSSAssets` renders, for the route's first entry in key order, one link tag
      per stylesheet in first-discovery order, each href passed through
      `fixResourcesPath`, joined by line breaks. */
  lemma CssAssetsInDiscoveryOrder(m: Manifest, rank: map<string, nat>, routePath: string, debug: bool, w: Window)
    requires Valid(m) && Ranked(m, rank) && EntryRanked(m, rank, routePath)
    ensures var e := FindEntryIndex(m, routePath, 0);
            e.Some? ==>
              var k := m.keys[e.value];
              FindCssAssets(m, rank, routePath, debug, w)
                == LinkTags(Dedup(Discovered(m, rank, m.chunks[k], rank[k])), routePath, debug, w)
  {
    var e := FindEntryIndex(m, routePath, 0);
    if e.Some? {
      var k := m.keys[e.value];
      CollectedStylesheets(m, rank, m.chunks[k], rank[k]);
    }
  }

  /** The entry found is the first record, in key order, that is the route's entry. */
  lemma FirstEntryFound(m: Manifest, routePath: string, i: nat)
    requires Valid(m) && i < |m.keys| && IsRouteEntry(m.chunks[m.keys[i]], routePath)
    requires forall j :: 0 <= j < i ==> !IsRouteEntry(m.chunks[m.keys[j]], routePath)
    ensures FindEntryIndex(m, routePath, 0) == Some(i)
    ensures FindManifestEntry(m, routePath) == Some(m.chunks[m.keys[i]])
  {
  }

  /** `findClientScript` for a route whose first entry record sits at position `i`:
      that record's `file` with its resource prefix fixed when the file is present
      and non-empty, and `null` otherwise; a route no record names gets `null`. */
  lemma ClientScriptOfFirstEntry(m: Manifest, routePath: string, debug: bool, w: Window, i: nat)
    requires Valid(m) && i < |m.keys| && IsRouteEntry(m.chunks[m.keys[i]], routePath)
    requires forall j :: 0 <= j < i ==> !IsRouteEntry(m.chunks[m.keys[j]], routePath)
    ensures var file := m.chunks[m.keys[i]].file;
            FindClientScript(m, routePath, debug, w)
              == if file.Some? && file.value != "" then Some(FixResourcesPath(debug, file.value, routePath, w)) else None
  {
    FirstEntryFound(m, routePath, i);
  }

  /** A route that no record names as its entry gets no client script. */
  lemma NoEntryNoScript(m: Manifest, routePath: string, debug: bool, w: Window)
    requires Valid(m)
    requires forall i :: 0 <= i < |m.keys| ==> !IsRouteEntry(m.chunks[m.keys[i]], routePath)
    ensures FindClientScript(m, routePath, debug, w) == None
  {
  }

  /** In a release build rendered on the server, an entry script under `resources/`
      is loaded from the theme's resource URL. */
  lemma ReleaseClientScript(m: Manifest, routePath: string)
    requires Valid(m)
    requires var e := FindManifestEntry(m, routePath);
             e.Some? && e.value.file.Some? && StartsWith(e.value.file.value, "resources/")
    ensures var file := FindManifestEntry(m, routePath).value.file.value;
            FindClientScript(m, routePath, false, NoWindow) == Some("${url.resourcesPath}/" + file[10..])
  {
    var file := FindManifestEntry(m, routePath).value.file.value;
    ReleasePrefix(file, routePath, JsValues.Str(""));
  }

  /** The tags of two file lists are the tags of each, one line break between. */
  lemma LinkTagsAppend(a: seq<string>, b: seq<string>, routePath: string, debug: bool, w: Window)
    requires |a| > 0 && |b| > 0
    ensures LinkTags(a + b, routePath, debug, w) == LinkTags(a, routePath, debug, w) + "\n" + LinkTags(b, routePath, debug, w)
  {
    TagsAppend(a, b, routePath, debug, w);
    JoinAppend(Tags(a, routePath, debug, w), Tags(b, routePath, debug, w), "\n");
  }

  lemma TagsAppend(a: seq<string>, b: seq<string>, routePath: string, debug: bool, w: Window)
    ensures Tags(a + b, routePath, debug, w) == Tags(a, routePath, debug, w) + Tags(b, routePath, debug, w)
  {
    var l := Tags(a + b, routePath, debug, w);
    var r := Tags(a, routePath, debug, w) + Tags(b, routePath, debug, w);
    forall i | 0 <= i < |a + b|
      ensures l[i] == r[i]
    {
      if i < |a| {
        assert (a + b)[i] == a[i];
      } else {
        assert (a + b)[i] == b[i - |a|];
      }
    }
  }
}
