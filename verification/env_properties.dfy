/** Properties relating the three views of an environment configuration: the leaves
    the `ftl*` helpers build, the script `generateFtlWithEnvironment` writes, and the
    object `buildDefaultEnvironment` returns. */
module EnvProperties {
  import opened Wrappers
  import opened Strings
  import opened JsValues
  import opened EnvConfig
  import opened FtlGenerator
  import opened DefaultEnvironment

  lemma {:induction false} EntryRenderSupported(e: Entry, indent: nat)
    requires RenderEntry(e, indent).Success?
    ensures SupportedEntry(e)
    decreases e, 1
  {
    if !LooksLikeLeaf(e.node) {
      ObjectRenderSupported(e.node.entries, indent + 2);
    }
  }

  /** Whatever the serialiser accepts, the default builder accepts too. */
  lemma {:induction false} ObjectRenderSupported(c: Config, indent: nat)
    requires BuildFtlObject(c, indent).Success?
    ensures Supported(c)
    decreases c, 0
  {
    ObjectLayout(c, indent);
    forall i | 0 <= i < |c|
      ensures SupportedEntry(c[i])
    {
      EntryRenderSupported(c[i], indent);
    }
  }

  /** An unsupported leaf type anywhere in the tree makes both the serialiser and the
      default builder throw; a configuration the serialiser accepts always has a
      default environment. */
  lemma UnsupportedFailsBoth(config: Config)
    ensures !Supported(config) ==> BuildDefaultEnvironment(config).Failure?
    ensures !Supported(config) ==> GenerateFtlWithEnvironment(config).Failure?
    ensures GenerateFtlWithEnvironment(config).Success? ==> BuildDefaultEnvironment(config).Success?
  {
    if GenerateFtlWithEnvironment(config).Success? {
      ObjectRenderSupported(config, 0);
    }
  }

  predicate ScalarDefaultFits(n: Node)
    requires n.Leaf?
  {
    match n.kind
    case StringType => n.default.Str? || IsNullish(n.default)
    case NumberType => n.default.Num? || IsNullish(n.default)
    case BooleanType => n.default.Bool? || IsNullish(n.default)
    case _ => false
  }

  /** For a scalar leaf, the server-side fallback is the literal of the default: a
      string quoted, a number or boolean bare, and `null`/`undefined` bare. The
      development default agrees with it whenever the default is present; when it is
      missing, the development default is the type's empty value instead. */
  lemma ScalarFallback(key: string, n: Node)
    requires n.Leaf? && ScalarDefaultFits(n)
    ensures IsScalarType(n.kind)
    ensures RenderLeaf(key, n) == Success(Quoted(key) + ": " + (HasContent(n.field) + ScalarVariable(n.kind, n.field)
                                          + ElseTag + ScalarLiteral(n.default) + EndIfTag))
    ensures !IsNullish(n.default) ==> DefaultOf(Entry(key, n)) == Success(n.default)
    ensures IsNullish(n.default) ==> DefaultOf(Entry(key, n)) == Success(EmptyValue(n.kind))
  {
    ScalarBody(n);
  }

  /** The body of a scalar leaf: its fallback is the literal of its default. */
  lemma ScalarBody(n: Node)
    requires n.Leaf? && ScalarDefaultFits(n)
    ensures IsScalarType(n.kind)
    ensures LeafBody(n) == Success(HasContent(n.field) + ScalarVariable(n.kind, n.field)
                                   + ElseTag + ScalarLiteral(n.default) + EndIfTag)
  {
    var d := n.default;
    if n.kind == StringType {
      assert FormatStringValue(d) == ScalarLiteral(d);
    } else {
      assert Interpolate(d) == ScalarLiteral(d);
    }
  }

  predicate AllNum(items: seq<Value>) {
    forall i :: 0 <= i < |items| ==> items[i].Num?
  }

  predicate AllStr(items: seq<Value>) {
    forall i :: 0 <= i < |items| ==> items[i].Str?
  }

  /** For list leaves, the server-side fallback is the list literal of the default:
      numbers bare, strings quoted, separated by `", "`; the development default is
      the same list. */
  lemma ListFallback(key: string, n: Node)
    requires n.Leaf? && n.default.Arr?
    requires (n.kind == NumberArrayType && AllNum(n.default.items))
             || (n.kind == StringArrayType && AllStr(n.default.items))
    ensures RenderLeaf(key, n).Success?
    ensures exists items :: RenderLeaf(key, n).value
              == Quoted(key) + ": " + (HasContent(n.field) + "[" + items + "]" + ElseTag
                                       + ListLiteral(n.default.items) + EndIfTag)
    ensures DefaultOf(Entry(key, n)) == Success(n.default)
  {
    var items := ListItems(n);
    ListBody(n);
    assert RenderLeaf(key, n).value
           == Quoted(key) + ": " + (HasContent(n.field) + "[" + items + "]" + ElseTag + ListLiteral(n.default.items) + EndIfTag);
  }

  /** The `<#list>` half of a list leaf's text. */
  function ListItems(n: Node): string
    requires n.Leaf?
  {
    if n.kind == NumberArrayType then ListOpen(n.field) + "${" + ItemExpression(n.formatItem) + "}" + ListSeparator
    else ListOpen(n.field) + "\"${" + ItemExpression(n.formatItem) + "}\"" + ListSeparator
  }

  lemma ListBody(n: Node)
    requires n.Leaf? && n.default.Arr?
    requires (n.kind == NumberArrayType && AllNum(n.default.items))
             || (n.kind == StringArrayType && AllStr(n.default.items))
    ensures LeafBody(n) == Success(HasContent(n.field) + "[" + ListItems(n) + "]" + ElseTag
                                   + ListLiteral(n.default.items) + EndIfTag)
  {
    var xs := n.default.items;
    var pre := HasContent(n.field) + "[" + ListItems(n) + "]" + ElseTag;
    if n.kind == NumberArrayType {
      DefaultsLiteral(xs, true);
      ConcatListFallback(pre, NumberDefaults(xs), ListLiteral(xs));
    } else {
      DefaultsLiteral(xs, false);
      ConcatListFallback(pre, StringDefaults(xs), ListLiteral(xs));
    }
  }

  /** The defaults text of a list leaf, in brackets, is the list literal of its items. */
  lemma DefaultsLiteral(xs: seq<Value>, numbers: bool)
    requires numbers ==> AllNum(xs)
    requires !numbers ==> AllStr(xs)
    ensures numbers ==> "[" + NumberDefaults(xs) + "]" == ListLiteral(xs)
    ensures !numbers ==> "[" + StringDefaults(xs) + "]" == ListLiteral(xs)
  {
    var lits := seq(|xs|, i requires 0 <= i < |xs| => ScalarLiteral(xs[i]));
    if numbers {
      assert seq(|xs|, i requires 0 <= i < |xs| => Interpolate(xs[i])) == lits;
    } else {
      assert seq(|xs|, i requires 0 <= i < |xs| => Quoted(Interpolate(xs[i]))) == lits;
    }
  }

  lemma ConcatListFallback(pre: string, defaults: string, literal: string)
    requires literal == "[" + defaults + "]"
    ensures pre + "[" + defaults + "]" + EndIfTag == pre + literal + EndIfTag
  {
  }

  /** In a release build `ftlNumber` always carries a number (`default ?? 0`), so the
      server fallback is that number and the development default is the same; in a
      development build the `debug` value is used with no fallback, and a missing one
      is written as `undefined` while the development default becomes `0`. */
  lemma NumberLeafDefaults(key: string, field: string, d: Nullable<int>, g: Nullable<int>)
    ensures var n := FtlNumber(field, d, g, false);
            var v := if d.Given? then d.value else 0;
            && DefaultOf(Entry(key, n)) == Success(Num(v))
            && RenderLeaf(key, n) == Success(Quoted(key) + ": " + (HasContent(field) + "${" + field + "}"
                                             + ElseTag + IntToDecimal(v) + EndIfTag))
    ensures var n := FtlNumber(field, d, Undefined, true);
            && DefaultOf(Entry(key, n)) == Success(Num(0))
            && RenderLeaf(key, n) == Success(Quoted(key) + ": " + (HasContent(field) + "${" + field + "}"
                                             + ElseTag + "undefined" + EndIfTag))
  {
    var n1 := FtlNumber(field, d, g, false);
    var v := if d.Given? then d.value else 0;
    ScalarFallback(key, n1);
    assert n1.default == Num(v);
    assert ScalarLiteral(n1.default) == IntToDecimal(v);
    var pre := HasContent(field);
    assert pre + ScalarVariable(NumberType, field) == pre + "${" + field + "}";
    var n2 := FtlNumber(field, d, Undefined, true);
    ScalarFallback(key, n2);
    assert ScalarLiteral(n2.default) == "undefined";
  }

  /** `ftlString` has no fallback in either build: the chosen value (`default` in a
      release build, `debug` in a development one) is written in double quotes when
      present and bare as `undefined` or `null` when missing, and the default builder
      gives it or `""`. */
  lemma StringLeafDefaults(key: string, field: string, d: Nullable<string>, g: Nullable<string>, dev: bool)
    ensures var n := FtlString(field, d, g, dev);
            var chosen := if dev then g else d;
            var fallback := match chosen
              case Undefined => "undefined"
              case Null => "null"
              case Given(s) => "\"" + s + "\"";
            RenderLeaf(key, n) == Success(Quoted(key) + ": " + (HasContent(field) + "\"${" + field + "}\""
                                          + ElseTag + fallback + EndIfTag))
    ensures var n := FtlString(field, d, g, dev);
            var chosen := if dev then g else d;
            DefaultOf(Entry(key, n)) == Success(Str(if chosen.Given? then chosen.value else ""))
  {
    var n := FtlString(field, d, g, dev);
    var chosen := if dev then g else d;
    ScalarFallback(key, n);
    var pre := HasContent(field);
    assert pre + ScalarVariable(StringType, field) == pre + "\"${" + field + "}\"";
    match chosen
    case Undefined =>
      assert ScalarLiteral(n.default) == "undefined";
    case Null =>
      assert ScalarLiteral(n.default) == "null";
    case Given(s) =>
      assert ScalarLiteral(n.default) == "\"" + s + "\"";
  }

  lemma SingleLeafConfig(key: string, n: Node)
    requires n.Leaf?
    ensures GenerateFtlWithEnvironment([Entry(key, n)]).Success? <==> RenderLeaf(key, n).Success?
  {
    ObjectLayout([Entry(key, n)], 0);
  }

  /** A `number[]` leaf built for a release build always serialises; one built for a
      development build without a `debug` list makes the whole serialisation fail. */
  lemma NumberArrayNeedsList(key: string, field: string, d: Nullable<seq<int>>, g: Nullable<seq<int>>,
                             formatItem: Option<string -> string>)
    ensures GenerateFtlWithEnvironment([Entry(key, FtlNumberArray(field, d, g, formatItem, false))]).Success?
    ensures !g.Given? ==>
              GenerateFtlWithEnvironment([Entry(key, FtlNumberArray(field, d, g, formatItem, true))]).Failure?
  {
    SingleLeafConfig(key, FtlNumberArray(field, d, g, formatItem, false));
    SingleLeafConfig(key, FtlNumberArray(field, d, g, formatItem, true));
  }

  /** Without a `formatItem`, the list helpers render each item as the bare loop
      variable: `${item}`. */
  lemma DefaultFormatItem(field: string, dn: Nullable<seq<int>>, gn: Nullable<seq<int>>,
                          ds: Nullable<seq<string>>, gs: Nullable<seq<string>>, dev: bool)
    ensures ItemExpression(FtlNumberArray(field, dn, gn, None, dev).formatItem) == "item"
    ensures ItemExpression(FtlStringArray(field, ds, gs, None, dev).formatItem) == "item"
  {
  }
}
