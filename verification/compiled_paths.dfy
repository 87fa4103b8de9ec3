/** The rewrite applied to every compiled JavaScript chunk after bundling: each string
    literal `"resources/<path>"` becomes the template literal
    `` `.${window.ENVIRONMENT?.resourcesPath}/<path>` ``, so asset URLs baked in by the
    bundler resolve against the theme's resource URL at run time. */
module CompiledPaths {
  import opened Wrappers
  import opened Strings

  /** The character class `[a-zA-Z0-9\-_.\/]`. */
  predicate PathChar(c: char) {
    ('a' <= c <= 'z') || ('A' <= c <= 'Z') || ('0' <= c <= '9') || c == '-' || c == '_' || c == '.' || c == '/'
  }

  const OpeningQuote: string := "\"resources/"
  const RuntimePrefix: string := ".${window.ENVIRONMENT?.resourcesPath}/"

  /** Text matched by `/"resources\/[a-zA-Z0-9\-_.\/]+"/`. */
  predicate IsLiteral(lit: string) {
    && |lit| >= |OpeningQuote| + 2
    && StartsWith(lit, OpeningQuote)
    && lit[|lit| - 1] == '"'
    && forall k :: |OpeningQuote| <= k < |lit| - 1 ==> PathChar(lit[k])
  }

  /** The path inside a matched literal. */
  function LiteralPath(lit: string): string
    requires IsLiteral(lit)
  {
    lit[|OpeningQuote|..|lit| - 1]
  }

  /** Length of the longest prefix made of path characters. */
  function RunLength(s: string): (n: nat)
    ensures n <= |s|
    ensures forall k :: 0 <= k < n ==> PathChar(s[k])
    ensures n < |s| ==> !PathChar(s[n])
  {
    if |s| == 0 || !PathChar(s[0]) then 0 else 1 + RunLength(s[1..])
  }

  /** The length of the regex match starting at the first character of `s`, if any.
      The class excludes `"`, so the greedy run followed by a quote is the only
      candidate: a match exists exactly when some prefix of `s` is a literal, and that
      prefix is unique. */
  function MatchLength(s: string): (r: Option<nat>)
    ensures r.Some? ==> r.value <= |s| && IsLiteral(s[..r.value])
    ensures forall n :: 0 <= n <= |s| && IsLiteral(s[..n]) ==> r == Some(n)
  {
    if !StartsWith(s, OpeningQuote) then None
    else
      var rest := s[|OpeningQuote|..];
      var run := RunLength(rest);
      if run > 0 && run < |rest| && rest[run] == '"' then
        var n := |OpeningQuote| + run + 1;
        assert forall k :: |OpeningQuote| <= k < n - 1 ==> s[..n][k] == rest[k - |OpeningQuote|];
        assert forall n' :: 0 <= n' <= |s| && IsLiteral(s[..n']) ==> n' == n by {
          forall n' | 0 <= n' <= |s| && IsLiteral(s[..n'])
            ensures n' == n
          {
            LiteralPrefixIsRun(s, n', run);
          }
        }
        Some(n)
      else
        assert forall n' :: 0 <= n' <= |s| ==> !IsLiteral(s[..n']) by {
          forall n' | 0 <= n' <= |s| && IsLiteral(s[..n'])
            ensures false
          {
            LiteralPrefixIsRun(s, n', run);
          }
        }
        None
  }

  /** A literal prefix of `s` ends exactly after the maximal run of path characters. */
  lemma LiteralPrefixIsRun(s: string, n: nat, run: nat)
    requires n <= |s| && IsLiteral(s[..n])
    requires StartsWith(s, OpeningQuote) && run == RunLength(s[|OpeningQuote|..])
    ensures n == |OpeningQuote| + run + 1 && run > 0 && s[|OpeningQuote| + run] == '"'
  {
    var o := |OpeningQuote|;
    var rest := s[o..];
    var lit := s[..n];
    assert forall j :: 0 <= j < n - 1 - o ==> rest[j] == lit[j + o];
    assert forall j :: 0 <= j < n - 1 - o ==> PathChar(rest[j]);
    assert rest[n - 1 - o] == lit[n - 1] == '"';
    assert !PathChar(rest[n - 1 - o]);
  }

  /** The replacement callback: the `"/resources/` branch, then the `"resources/`
      branch, then every double quote turned into a backtick. */
  function FixMatch(lit: string): string {
    var m1 := if StartsWith(lit, "\"/resources/") then ReplaceFirst(lit, "/resources/", RuntimePrefix) else lit;
    var m2 := if StartsWith(m1, "\"resources/") then ReplaceFirst(m1, "resources/", RuntimePrefix) else m1;
    ReplaceAllChar(m2, '"', '`')
  }

  /** `content.replaceAll(/"resources\/[a-zA-Z0-9\-_.\/]+"/g, FixMatch)`: scanning left
      to right, a match is replaced and scanning resumes after it; elsewhere one
      character is kept and scanning moves on by one. */
  function RewriteCompiled(s: string): string
    decreases |s|
  {
    if |s| == 0 then []
    else
      match MatchLength(s)
      case Some(n) => FixMatch(s[..n]) + RewriteCompiled(s[n..])
      case None => [s[0]] + RewriteCompiled(s[1..])
  }

  /** The `"/resources/` branch of the callback never fires: a match always starts
      with `"resources/`. */
  lemma DeadBranch(lit: string)
    requires IsLiteral(lit)
    ensures !StartsWith(lit, "\"/resources/")
  {
    assert lit[1] == OpeningQuote[1] == 'r';
  }

  /** `"resources/` occurs first at position 1 of a match. */
  lemma ResourcesAtOne(lit: string)
    requires IsLiteral(lit)
    ensures FirstOccurrence(lit, "resources/", 1)
  {
    assert lit[1..11] == OpeningQuote[1..11] == "resources/";
    assert lit[0] == '"';
  }

  lemma RuntimePrefixQuoteFree()
    ensures '"' !in RuntimePrefix
  {
  }

  /** The path of a match holds no double quote. */
  lemma PathQuoteFree(lit: string)
    requires IsLiteral(lit)
    ensures '"' !in LiteralPath(lit)
  {
    var p := LiteralPath(lit);
    assert forall j :: 0 <= j < |p| ==> p[j] == lit[j + |OpeningQuote|];
    assert !PathChar('"');
  }

  /** Replacing the first `resources/` of a match, before the quotes are turned. */
  lemma ReplacedMatch(lit: string)
    requires IsLiteral(lit)
    ensures ReplaceFirst(lit, "resources/", RuntimePrefix) == "\"" + RuntimePrefix + LiteralPath(lit) + "\""
  {
    ResourcesAtOne(lit);
    var path := LiteralPath(lit);
    assert lit[..1] == "\"";
    assert lit[1 + |"resources/"|..] == path + "\"";
  }

  /** Turning the quotes around a quote-free text into backticks. */
  lemma BacktickedText(mid: string)
    requires '"' !in mid
    ensures ReplaceAllChar("\"" + mid + "\"", '"', '`') == "`" + mid + "`"
  {
    var q := "\"" + mid + "\"";
    var r := ReplaceAllChar(q, '"', '`');
    assert forall i :: 0 < i < |q| - 1 ==> q[i] == mid[i - 1];
    assert forall i :: 0 <= i < |r| ==> r[i] == ("`" + mid + "`")[i];
  }

  /** The same, for a text made of two parts. */
  lemma Backticked(prefix: string, path: string)
    requires '"' !in prefix && '"' !in path
    ensures ReplaceAllChar("\"" + prefix + path + "\"", '"', '`') == "`" + prefix + path + "`"
  {
    assert "\"" + prefix + path + "\"" == "\"" + (prefix + path) + "\"";
    assert "`" + prefix + path + "`" == "`" + (prefix + path) + "`";
    BacktickedText(prefix + path);
  }

  /** What the callback makes of a match: the path wrapped in a template literal that
      starts from the run-time resource URL. */
  lemma FixMatchOfLiteral(lit: string)
    requires IsLiteral(lit)
    ensures FixMatch(lit) == "`" + RuntimePrefix + LiteralPath(lit) + "`"
  {
    DeadBranch(lit);
    ReplacedMatch(lit);
    PathQuoteFree(lit);
    RuntimePrefixQuoteFree();
    Backticked(RuntimePrefix, LiteralPath(lit));
  }

  /** Text without a double quote passes through unchanged, whatever follows. */
  lemma {:induction false} QuoteFreePrefix(u: string, w: string)
    requires '"' !in u
    ensures RewriteCompiled(u + w) == u + RewriteCompiled(w)
    decreases |u|
  {
    if |u| > 0 {
      var s := u + w;
      assert s[0] == u[0] != '"';
      assert !StartsWith(s, OpeningQuote) by { assert OpeningQuote[0] == '"'; }
      assert s[1..] == u[1..] + w;
      QuoteFreePrefix(u[1..], w);
      assert u == [u[0]] + u[1..];
    } else {
      assert u + w == w;
    }
  }

  /** A match is replaced as a whole and scanning resumes right after it. */
  lemma LiteralThenRest(lit: string, w: string)
    requires IsLiteral(lit)
    ensures RewriteCompiled(lit + w) == "`" + RuntimePrefix + LiteralPath(lit) + "`" + RewriteCompiled(w)
  {
    var s := lit + w;
    assert s[..|lit|] == lit;
    assert MatchLength(s) == Some(|lit|);
    assert s[|lit|..] == w;
    FixMatchOfLiteral(lit);
  }

  /** Code in which `"resources/` never occurs is left exactly as it was. */
  lemma {:induction false} NoOpeningUnchanged(s: string)
    requires forall i :: !OccursAt(s, OpeningQuote, i)
    ensures RewriteCompiled(s) == s
    decreases |s|
  {
    if |s| > 0 {
      assert !OccursAt(s, OpeningQuote, 0);
      assert MatchLength(s) == None;
      forall i
        ensures !OccursAt(s[1..], OpeningQuote, i)
      {
        OccursAfterFirst(s, OpeningQuote, i);
      }
      NoOpeningUnchanged(s[1..]);
      assert s == [s[0]] + s[1..];
    }
  }

  /** Where no match starts, one character is copied and scanning moves on by one. */
  lemma SkipOne(u: string, w: string)
    requires |u| > 0 && MatchLength(u + w).None?
    ensures RewriteCompiled(u + w) == [u[0]] + RewriteCompiled(u[1..] + w)
  {
    assert (u + w)[1..] == u[1..] + w;
  }

  /** The suffixes of `u + w` after its first character are those of `u[1..] + w`. */
  lemma ShiftSuffixes(u: string, w: string)
    requires |u| > 0
    requires forall i :: 0 <= i < |u| ==> MatchLength((u + w)[i..]).None?
    ensures MatchLength(u + w).None?
    ensures forall i :: 0 <= i < |u| - 1 ==> MatchLength((u[1..] + w)[i..]).None?
  {
    assert (u + w)[0..] == u + w;
    forall i | 0 <= i < |u| - 1
      ensures MatchLength((u[1..] + w)[i..]).None?
    {
      assert (u[1..] + w)[i..] == (u + w)[i + 1..];
    }
  }

  /** Text at none of whose positions a match starts is copied unchanged, whatever
      follows; this covers other string literals, a `"resources/` not followed by a
      run and a closing quote, and every quote that starts no match. */
  lemma {:induction false} NoMatchPrefix(u: string, w: string)
    requires forall i :: 0 <= i < |u| ==> MatchLength((u + w)[i..]).None?
    ensures RewriteCompiled(u + w) == u + RewriteCompiled(w)
    decreases |u|
  {
    if |u| > 0 {
      var t := u[1..];
      ShiftSuffixes(u, w);
      SkipOne(u, w);
      NoMatchPrefix(t, w);
      var r := RewriteCompiled(w);
      assert [u[0]] + (t + r) == ([u[0]] + t) + r;
      assert [u[0]] + t == u;
    } else {
      assert u + w == w;
    }
  }

  /** Code, then a match, then more code: the code before the match is copied, the
      match becomes its template literal and scanning goes on after it. */
  lemma PlainThenLiteral(u: string, lit: string, w: string)
    requires IsLiteral(lit)
    requires forall i :: 0 <= i < |u| ==> MatchLength((u + (lit + w))[i..]).None?
    ensures RewriteCompiled(u + (lit + w)) == u + ("`" + RuntimePrefix + LiteralPath(lit) + "`" + RewriteCompiled(w))
  {
    NoMatchPrefix(u, lit + w);
    LiteralThenRest(lit, w);
  }

  /** An occurrence in the tail is an occurrence in the whole, one position later. */
  lemma OccursAfterFirst(s: string, pat: string, i: int)
    requires |s| > 0
    ensures OccursAt(s[1..], pat, i) ==> OccursAt(s, pat, i + 1)
  {
    if OccursAt(s[1..], pat, i) {
      assert forall k :: 0 <= k < |pat| ==> pat[k] == s[1..][i..i + |pat|][k] == s[i + 1 + k];
      assert s[i + 1..i + 1 + |pat|] == pat;
    }
  }
}
