/** `fixResourcesPath`: rewrites the leading `/resources/`, `resources/` or `/assets/`
    segment of an asset path into the prefix under which the theme serves its
    resources — the FreeMarker expression `${url.resourcesPath}` on the server, the
    runtime `ENVIRONMENT.resourcesPath` in a browser, or `/<route>/resources/` in
    debug builds. */
module ResourcePaths {
  import opened Strings
  import opened JsValues

  /** What `getWindow()` yields: nothing where the global `window` is missing (its
      lookup throws and is caught), or a browser window whose
      `ENVIRONMENT?.resourcesPath` is the given value (`Undef` when absent). */
  datatype Window = NoWindow | BrowserWindow(resourcesPath: Value)

  /** The FreeMarker expression the server fills in with the theme's resource URL. */
  const ServerResourcesPath: string := "${url.resourcesPath}"

  /** The three leading segments that are rewritten, in the order they are checked. */
  const ResourcesSegment: string := "/resources/"
  const RelativeResourcesSegment: string := "resources/"
  const AssetsSegment: string := "/assets/"

  /** The prefix substituted for a leading segment. */
  function ResourcesPrefix(debug: bool, routePath: string, w: Window): string {
    if debug then "/" + routePath + "/resources/"
    else
      var resourcesPath := match w
        case NoWindow => ServerResourcesPath
        case BrowserWindow(rp) => Interpolate(rp);
      resourcesPath + "/"
  }

  /** `if (s.startsWith(seg)) s = s.replace(seg, prefix)` */
  function ReplaceIfLeading(s: string, seg: string, prefix: string): (r: string)
    ensures StartsWith(s, seg) ==> r == prefix + s[|seg|..]
    ensures !StartsWith(s, seg) ==> r == s
  {
    if StartsWith(s, seg) then
      ReplaceLeading(s, seg, prefix);
      ReplaceFirst(s, seg, prefix)
    else s
  }

  predicate LeadingSegment(path: string) {
    StartsWith(path, ResourcesSegment) || StartsWith(path, RelativeResourcesSegment) || StartsWith(path, AssetsSegment)
  }

  /** One of `a`, `b` is a prefix of the other. */
  predicate Compatible(a: string, b: string) {
    StartsWith(a, b) || StartsWith(b, a)
  }

  /** A prefix that, whatever follows it, never starts one of the segments checked
      after the first: such a prefix is substituted once and never rewritten again. */
  predicate Inert(prefix: string) {
    !Compatible(prefix, RelativeResourcesSegment) && !Compatible(prefix, AssetsSegment)
  }

  lemma StartsWithConcat(p: string, rest: string, seg: string)
    requires StartsWith(p + rest, seg)
    ensures Compatible(p, seg)
  {
    if |p| <= |seg| {
      assert seg[..|p|] == (p + rest)[..|p|] == p;
    } else {
      assert p[..|seg|] == (p + rest)[..|seg|] == seg;
    }
  }

  /** `fixResourcesPath(debug, path, routePath)` with the window passed in: the three
      checks run in order, each on the value the previous one produced. */
  function FixResourcesPath(debug: bool, path: string, routePath: string, w: Window): (r: string)
    ensures !LeadingSegment(path) ==> r == path
  {
    var p := ResourcesPrefix(debug, routePath, w);
    var s1 := ReplaceIfLeading(path, ResourcesSegment, p);
    var s2 := ReplaceIfLeading(s1, RelativeResourcesSegment, p);
    ReplaceIfLeading(s2, AssetsSegment, p)
  }

  lemma InertPrefixSticks(p: string, rest: string)
    requires Inert(p)
    ensures !StartsWith(p + rest, RelativeResourcesSegment) && !StartsWith(p + rest, AssetsSegment)
  {
    if StartsWith(p + rest, RelativeResourcesSegment) {
      StartsWithConcat(p, rest, RelativeResourcesSegment);
    }
    if StartsWith(p + rest, AssetsSegment) {
      StartsWithConcat(p, rest, AssetsSegment);
    }
  }

  /** With an inert prefix, a path that begins with one of the three segments has
      exactly that leading segment replaced and the rest kept as it was, including
      any later `resources/` inside it. */
  lemma InertPrefixRewritesOnce(debug: bool, path: string, routePath: string, w: Window)
    requires Inert(ResourcesPrefix(debug, routePath, w))
    ensures var p := ResourcesPrefix(debug, routePath, w);
      StartsWith(path, ResourcesSegment) ==> FixResourcesPath(debug, path, routePath, w) == p + path[11..]
    ensures var p := ResourcesPrefix(debug, routePath, w);
      StartsWith(path, RelativeResourcesSegment) ==> FixResourcesPath(debug, path, routePath, w) == p + path[10..]
    ensures var p := ResourcesPrefix(debug, routePath, w);
      StartsWith(path, AssetsSegment) ==> FixResourcesPath(debug, path, routePath, w) == p + path[8..]
  {
    var p := ResourcesPrefix(debug, routePath, w);
    if StartsWith(path, ResourcesSegment) {
      InertPrefixSticks(p, path[11..]);
    }
    if StartsWith(path, RelativeResourcesSegment) {
      assert path[0] != ResourcesSegment[0];
      InertPrefixSticks(p, path[10..]);
    }
    if StartsWith(path, AssetsSegment) {
      assert path[1] != ResourcesSegment[1];
      assert path[0] != RelativeResourcesSegment[0];
    }
  }

  /** In debug builds the prefix is `/<routePath>/resources/` whatever the window
      holds, so the window cannot change the result. */
  lemma DebugIgnoresWindow(path: string, routePath: string, w1: Window, w2: Window)
    ensures ResourcesPrefix(true, routePath, w1) == "/" + routePath + "/resources/"
    ensures FixResourcesPath(true, path, routePath, w1) == FixResourcesPath(true, path, routePath, w2)
  {
  }

  /** Outside debug builds the prefix is the literal FreeMarker expression when there
      is no window, and the window's `ENVIRONMENT.resourcesPath` otherwise; in the
      server case every leading segment is replaced exactly once. */
  lemma ReleasePrefix(path: string, routePath: string, rp: Value)
    ensures ResourcesPrefix(false, routePath, NoWindow) == "${url.resourcesPath}/"
    ensures ResourcesPrefix(false, routePath, BrowserWindow(rp)) == Interpolate(rp) + "/"
    ensures Inert(ResourcesPrefix(false, routePath, NoWindow))
    ensures StartsWith(path, "/resources/") ==>
      FixResourcesPath(false, path, routePath, NoWindow) == "${url.resourcesPath}/" + path[11..]
    ensures StartsWith(path, "resources/") ==>
      FixResourcesPath(false, path, routePath, NoWindow) == "${url.resourcesPath}/" + path[10..]
    ensures StartsWith(path, "/assets/") ==>
      FixResourcesPath(false, path, routePath, NoWindow) == "${url.resourcesPath}/" + path[8..]
  {
    var p := ResourcesPrefix(false, routePath, NoWindow);
    assert p[0] == '$';
    assert !Compatible(p, RelativeResourcesSegment) by {
      assert RelativeResourcesSegment[0] != p[0];
    }
    assert !Compatible(p, AssetsSegment) by {
      assert AssetsSegment[0] != p[0];
    }
    InertPrefixRewritesOnce(false, path, routePath, NoWindow);
  }

  /** A debug prefix is inert unless the route itself begins with `assets`. */
  lemma DebugPrefixInert(routePath: string, w: Window)
    requires !StartsWith(routePath, "assets")
    ensures Inert(ResourcesPrefix(true, routePath, w))
  {
    var p := ResourcesPrefix(true, routePath, w);
    assert p[0] == '/';
    assert !Compatible(p, RelativeResourcesSegment) by {
      assert RelativeResourcesSegment[0] != p[0];
    }
    DebugPrefixOffAssets(routePath, p);
  }

  lemma DebugPrefixOffAssets(routePath: string, p: string)
    requires p == "/" + routePath + "/resources/"
    requires !StartsWith(routePath, "assets")
    ensures !Compatible(p, AssetsSegment)
  {
    assert |p| > |AssetsSegment|;
    if |routePath| < 6 {
      assert p[1 + |routePath|] != AssetsSegment[1 + |routePath|];
    } else {
      assert p[1..7] == routePath[..6];
      assert AssetsSegment[1..7] == "assets";
      assert p[..8][1..7] == p[1..7];
    }
  }

  lemma FirstCheckFires(debug: bool, rest: string, routePath: string, w: Window)
    ensures var p := ResourcesPrefix(debug, routePath, w);
      FixResourcesPath(debug, ResourcesSegment + rest, routePath, w)
        == ReplaceIfLeading(ReplaceIfLeading(p + rest, RelativeResourcesSegment, p), AssetsSegment, p)
  {
    var path := ResourcesSegment + rest;
    assert path[..11] == ResourcesSegment;
  }

  /** The checks compose: with debug on and route `assets`, a `/resources/` path is
      rewritten to `/assets/resources/…`, which the third check then rewrites again. */
  lemma ChainedRewrite(rest: string, w: Window)
    ensures FixResourcesPath(true, ResourcesSegment + rest, "assets", w) == "/assets/resources/resources/" + rest
  {
    AssetsRoutePrefix(w);
    FirstCheckFires(true, rest, "assets", w);
    AssetsRouteSecondAndThirdChecks(rest);
  }

  lemma AssetsRoutePrefix(w: Window)
    ensures ResourcesPrefix(true, "assets", w) == "/assets/resources/"
  {
  }

  lemma AssetsRouteSecondAndThirdChecks(rest: string)
    ensures var p := "/assets/resources/";
      ReplaceIfLeading(ReplaceIfLeading(p + rest, RelativeResourcesSegment, p), AssetsSegment, p)
        == "/assets/resources/resources/" + rest
  {
    var p := "/assets/resources/";
    assert (p + rest)[0] != RelativeResourcesSegment[0];
    assert (p + rest)[..8] == AssetsSegment;
    assert (p + rest)[8..] == "resources/" + rest;
  }
}
