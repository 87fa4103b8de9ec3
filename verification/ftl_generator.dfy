/** `generateFtlWithEnvironment`: serialises an environment configuration into the
    script a page template embeds. Each leaf becomes a FreeMarker conditional that
    emits the server-side variable when it has content and the configured default
    otherwise; nested objects become nested object literals. */
module FtlGenerator {
  import opened Wrappers
  import opened Strings
  import opened JsValues
  import opened EnvConfig

  /** Why serialisation stops: an unsupported `type` (`throw new Error`), or a
      TypeError from a default that is not a list or a missing `itemConfig`. */
  datatype FtlError =
    | UnsupportedVariableType
    | DefaultNotAList(field: string)
    | MissingItemConfig(field: string)

  const EnvironmentPrefix: string := "window.ENVIRONMENT = Object.assign(window.ENVIRONMENT ?? {}, { "
  const EnvironmentSuffix: string := " });"
  const ElseTag: string := "<#else>"
  const EndIfTag: string := "</#if>"
  const ListSeparator: string := "<#if item_has_next>, </#if></#list>"

  function Quoted(s: string): string {
    "\"" + s + "\""
  }

  /** `<#if (field)?has_content>` */
  function HasContent(field: string): string {
    "<#if (" + field + ")?has_content>"
  }

  function ListOpen(field: string): string {
    "<#list " + field + " as item>"
  }

  predicate IsScalarType(kind: FtlType) {
    kind == StringType || kind == NumberType || kind == BooleanType
  }

  /** The branch a scalar leaf takes when the FreeMarker variable has content: the
      variable quoted for strings, bare for numbers, through `?c` for booleans. */
  function ScalarVariable(kind: FtlType, field: string): string
    requires IsScalarType(kind)
  {
    match kind
    case StringType => "\"${" + field + "}\""
    case NumberType => "${" + field + "}"
    case BooleanType => "${(" + field + ")?c}"
  }

  /** `formatStringValue(v)` as interpolated: quoted unless `null` or `undefined`. */
  function FormatStringValue(v: Value): (r: string)
    ensures v.NullV? ==> r == "null"
    ensures v.Undef? ==> r == "undefined"
    ensures v.Str? ==> r == "\"" + v.s + "\""
    ensures !IsNullish(v) ==> |r| >= 2 && r[0] == '"' && r[|r| - 1] == '"' && r[1..|r| - 1] == Interpolate(v)
  {
    if IsNullish(v) then Interpolate(v) else Quoted(Interpolate(v))
  }

  /** The expression placed inside `${…}` for each list item: `formatItem("item")`, or
      `item` when there is no formatter. */
  function ItemExpression(formatItem: Option<string -> string>): string {
    if formatItem.Some? then formatItem.value("item") else "item"
  }

  /** `itemValue.field` as interpolated, for a child of an `itemConfig`. */
  function ItemField(n: Node): string {
    if n.Leaf? then n.field
    else if HasKey(n.entries, "field") then "[object Object]"
    else "undefined"
  }

  /** `"itemKey": "${item.<field>}"`, one property of an `object[]` item. */
  function ItemText(e: Entry): string {
    Quoted(e.key) + ": \"${item." + ItemField(e.node) + "}\""
  }

  function ItemFieldsText(itemConfig: Config): string {
    Join(seq(|itemConfig|, i requires 0 <= i < |itemConfig| => ItemText(itemConfig[i])), ", ")
  }

  function NumberDefaults(items: seq<Value>): string {
    Join(seq(|items|, i requires 0 <= i < |items| => Interpolate(items[i])), ", ")
  }

  function StringDefaults(items: seq<Value>): string {
    Join(seq(|items|, i requires 0 <= i < |items| => Quoted(Interpolate(items[i]))), ", ")
  }

  /** The text of one leaf after its `"key": `, by its `type`; a `Failure` where the
      source throws. */
  function LeafBody(n: Node): (r: Result<string, FtlError>)
    requires n.Leaf?
    ensures r.Failure? <==> (n.kind.OtherType?
                             || (n.kind == NumberArrayType && !n.default.Arr?)
                             || (n.kind == StringArrayType && !IsNullish(n.default) && !n.default.Arr?)
                             || (n.kind == ObjectArrayType && n.itemConfig.None?))
  {
    var f := n.field;
    match n.kind
    case StringType =>
      Success(HasContent(f) + ScalarVariable(StringType, f) + ElseTag + FormatStringValue(n.default) + EndIfTag)
    case NumberType =>
      Success(HasContent(f) + ScalarVariable(NumberType, f) + ElseTag + Interpolate(n.default) + EndIfTag)
    case BooleanType =>
      Success(HasContent(f) + ScalarVariable(BooleanType, f) + ElseTag + Interpolate(n.default) + EndIfTag)
    case NumberArrayType =>
      if !n.default.Arr? then Failure(DefaultNotAList(f))
      else
        var items := ListOpen(f) + "${" + ItemExpression(n.formatItem) + "}" + ListSeparator;
        Success(HasContent(f) + "[" + items + "]" + ElseTag + "[" + NumberDefaults(n.default.items) + "]" + EndIfTag)
    case StringArrayType =>
      var d := Coalesce(n.default, Arr([]));
      if !d.Arr? then Failure(DefaultNotAList(f))
      else
        var items := ListOpen(f) + "\"${" + ItemExpression(n.formatItem) + "}\"" + ListSeparator;
        Success(HasContent(f) + "[" + items + "]" + ElseTag + "[" + StringDefaults(d.items) + "]" + EndIfTag)
    case ObjectArrayType =>
      if n.itemConfig.None? then Failure(MissingItemConfig(f))
      else
        var items := ListOpen(f) + "{\n" + Spaces(16) + ItemFieldsText(n.itemConfig.value) + "\n"
                     + Spaces(12) + "}" + ListSeparator;
        Success("[" + items + "]")
    case OtherType(_) => Failure(UnsupportedVariableType)
  }

  /** The text of one leaf entry, `"key": …`. */
  function RenderLeaf(key: string, n: Node): (r: Result<string, FtlError>)
    requires n.Leaf?
    ensures r.Failure? <==> LeafBody(n).Failure?
    ensures r.Failure? ==> r.error == LeafBody(n).error
    ensures r.Success? ==> r.value == Quoted(key) + ": " + LeafBody(n).value
  {
    match LeafBody(n)
    case Success(t) => Success(Quoted(key) + ": " + t)
    case Failure(e) => Failure(e)
  }

  /** The text of one entry of an object at the given indentation (before the
      indentation itself is added). */
  function RenderEntry(e: Entry, indent: nat): Result<string, FtlError>
    decreases e, 1
  {
    if LooksLikeLeaf(e.node) then
      if e.node.Leaf? then RenderLeaf(e.key, e.node) else Failure(UnsupportedVariableType)
    else
      match BuildFtlObject(e.node.entries, indent + 2)
      case Success(body) => Success(Quoted(e.key) + ": { " + body + " }")
      case Failure(err) => Failure(err)
  }

  /** The rendering of every entry, in key order. */
  function EntryResults(entries: Config, indent: nat): (rs: seq<Result<string, FtlError>>)
    decreases entries, 0
    ensures |rs| == |entries|
    ensures forall i :: 0 <= i < |entries| ==> rs[i] == RenderEntry(entries[i], indent)
  {
    seq(|entries|, i requires 0 <= i < |entries| => RenderEntry(entries[i], indent))
  }

  /** `Object.entries(obj).map(...)`: every entry rendered in order, the first failure
      aborting the whole. */
  function RenderEntries(entries: Config, indent: nat): (r: Result<seq<string>, FtlError>)
    decreases entries, 1
    ensures r.Success? <==> forall i :: 0 <= i < |entries| ==> RenderEntry(entries[i], indent).Success?
    ensures r.Success? ==> |r.value| == |entries|
    ensures r.Success? ==> forall i :: 0 <= i < |entries| ==> RenderEntry(entries[i], indent) == Success(r.value[i])
    ensures r.Failure? ==> exists i :: 0 <= i < |entries| && RenderEntry(entries[i], indent) == Failure(r.error)
                                        && forall j :: 0 <= j < i ==> RenderEntry(entries[j], indent).Success?
  {
    AllSucceed(EntryResults(entries, indent))
  }

  /** `buildFtlObject(obj, indent)`: the rendered entries, each preceded by `indent`
      spaces and two more, joined by a comma and a line break. */
  function BuildFtlObject(entries: Config, indent: nat): Result<string, FtlError>
    decreases entries, 2
  {
    match RenderEntries(entries, indent)
    case Success(ts) =>
      Success(Join(seq(|ts|, i requires 0 <= i < |ts| => Spaces(indent) + "  " + ts[i]), ",\n"))
    case Failure(err) => Failure(err)
  }

  /** `generateFtlWithEnvironment(config)` */
  function GenerateFtlWithEnvironment(config: Config): (r: Result<string, FtlError>)
    ensures r.Success? <==> BuildFtlObject(config, 0).Success?
    ensures r.Success? ==> r.value == EnvironmentPrefix + BuildFtlObject(config, 0).value + EnvironmentSuffix
  {
    match BuildFtlObject(config, 0)
    case Success(body) => Success(EnvironmentPrefix + body + EnvironmentSuffix)
    case Failure(err) => Failure(err)
  }

  /** One line of an object body: the entry's text after `indent` spaces and two more. */
  function Line(e: Entry, indent: nat): string
    requires RenderEntry(e, indent).Success?
  {
    Spaces(indent) + "  " + RenderEntry(e, indent).value
  }

  function Lines(entries: Config, indent: nat): (ls: seq<string>)
    requires forall i :: 0 <= i < |entries| ==> RenderEntry(entries[i], indent).Success?
    ensures |ls| == |entries|
  {
    seq(|entries|, i requires 0 <= i < |entries| => Line(entries[i], indent))
  }

  /** Layout of an object body: one line per key, in key order, joined by `",\n"`;
      it fails exactly when some entry fails. */
  lemma ObjectLayout(entries: Config, indent: nat)
    ensures BuildFtlObject(entries, indent).Success?
            <==> forall i :: 0 <= i < |entries| ==> RenderEntry(entries[i], indent).Success?
    ensures BuildFtlObject(entries, indent).Success? ==>
              BuildFtlObject(entries, indent).value == Join(Lines(entries, indent), ",\n")
  {
    var r := RenderEntries(entries, indent);
    if r.Success? {
      var ts := r.value;
      assert seq(|ts|, i requires 0 <= i < |ts| => Spaces(indent) + "  " + ts[i]) == Lines(entries, indent);
    }
  }

  /** Serialising the concatenation of two objects' entries gives the two bodies
      joined by `",\n"`, and fails exactly when either part fails. */
  lemma BuildObjectAppend(a: Config, b: Config, indent: nat)
    requires |a| > 0 && |b| > 0
    ensures BuildFtlObject(a + b, indent).Success?
            <==> BuildFtlObject(a, indent).Success? && BuildFtlObject(b, indent).Success?
    ensures BuildFtlObject(a + b, indent).Success? ==>
              BuildFtlObject(a + b, indent).value
                == BuildFtlObject(a, indent).value + ",\n" + BuildFtlObject(b, indent).value
  {
    ObjectLayout(a, indent);
    ObjectLayout(b, indent);
    ObjectLayout(a + b, indent);
    EntriesOfAppend(a, b, indent);
    if BuildFtlObject(a + b, indent).Success? {
      LinesAppend(a, b, indent);
      JoinAppend(Lines(a, indent), Lines(b, indent), ",\n");
    }
  }

  lemma EntriesOfAppend(a: Config, b: Config, indent: nat)
    ensures (forall i :: 0 <= i < |a + b| ==> RenderEntry((a + b)[i], indent).Success?)
            <==> (forall i :: 0 <= i < |a| ==> RenderEntry(a[i], indent).Success?)
                 && (forall i :: 0 <= i < |b| ==> RenderEntry(b[i], indent).Success?)
  {
    assert forall i :: 0 <= i < |a| ==> (a + b)[i] == a[i];
    assert forall i :: 0 <= i < |b| ==> (a + b)[|a| + i] == b[i];
  }

  lemma LinesAppend(a: Config, b: Config, indent: nat)
    requires forall i :: 0 <= i < |a| ==> RenderEntry(a[i], indent).Success?
    requires forall i :: 0 <= i < |b| ==> RenderEntry(b[i], indent).Success?
    requires forall i :: 0 <= i < |a + b| ==> RenderEntry((a + b)[i], indent).Success?
    ensures Lines(a + b, indent) == Lines(a, indent) + Lines(b, indent)
  {
    var l := Lines(a + b, indent);
    var r := Lines(a, indent) + Lines(b, indent);
    forall i | 0 <= i < |l|
      ensures l[i] == r[i]
    {
      if i < |a| {
        assert (a + b)[i] == a[i];
      } else {
        assert (a + b)[i] == b[i - |a|];
      }
    }
  }

  /** A nested object renders as `"key": { <its body, indented two more> }`. */
  lemma NestedEntry(key: string, inner: Config, indent: nat)
    requires !LooksLikeLeaf(Nested(inner))
    ensures BuildFtlObject([Entry(key, Nested(inner))], indent).Success? <==> BuildFtlObject(inner, indent + 2).Success?
    ensures BuildFtlObject(inner, indent + 2).Success? ==>
              BuildFtlObject([Entry(key, Nested(inner))], indent).value
                == Spaces(indent) + "  " + Quoted(key) + ": { " + BuildFtlObject(inner, indent + 2).value + " }"
  {
    ObjectLayout([Entry(key, Nested(inner))], indent);
  }

  /** An `object[]` leaf ignores its default entirely. */
  lemma ObjectArrayIgnoresDefault(key: string, n: Node, other: Value)
    requires n.Leaf? && n.kind == ObjectArrayType
    ensures RenderLeaf(key, n) == RenderLeaf(key, n.(default := other))
  {
  }

  /** The whole output: the assignment statement around one line per top-level entry,
      present exactly when every entry renders. */
  lemma GeneratedScript(config: Config)
    ensures GenerateFtlWithEnvironment(config).Success?
            <==> forall i :: 0 <= i < |config| ==> RenderEntry(config[i], 0).Success?
    ensures GenerateFtlWithEnvironment(config).Success? ==>
              GenerateFtlWithEnvironment(config).value
                == EnvironmentPrefix + Join(Lines(config, 0), ",\n") + EnvironmentSuffix
  {
    ObjectLayout(config, 0);
  }

  /** An `object[]` leaf with an item config writes a FreeMarker list of object
      literals, one `"itemKey": "${item.<field>}"` per item-config key in key order,
      joined by `", "`, on a line indented by 16 spaces and closed by a brace indented
      by 12. A leaf child contributes its `field`; a nested child without a `field`
      key contributes `undefined`. Without an item config the leaf fails. */
  lemma ObjectArrayText(key: string, field: string, d: Value, formatItem: Option<string -> string>, ic: Config)
    ensures var items := seq(|ic|, i requires 0 <= i < |ic| =>
                           Quoted(ic[i].key) + ": \"${item." + ItemField(ic[i].node) + "}\"");
            RenderLeaf(key, Leaf(field, ObjectArrayType, d, formatItem, Some(ic)))
              == Success(Quoted(key) + ": " + ("[" + (ListOpen(field) + "{\n" + Spaces(16) + Join(items, ", ")
                                                         + "\n" + Spaces(12) + "}" + ListSeparator) + "]"))
    ensures forall i :: 0 <= i < |ic| && ic[i].node.Leaf? ==>
              ItemText(ic[i]) == Quoted(ic[i].key) + ": \"${item." + ic[i].node.field + "}\""
    ensures forall i :: 0 <= i < |ic| && ic[i].node.Nested? && !HasKey(ic[i].node.entries, "field") ==>
              ItemText(ic[i]) == Quoted(ic[i].key) + ": \"${item.undefined}\""
    ensures RenderLeaf(key, Leaf(field, ObjectArrayType, d, formatItem, None)) == Failure(MissingItemConfig(field))
  {
    ObjectArrayBody(field, d, formatItem, ic);
    ItemTextOfChild(ic);
    MissingItemConfigFails(key, field, d, formatItem);
  }

  lemma ItemTextOfChild(ic: Config)
    ensures forall i :: 0 <= i < |ic| && ic[i].node.Leaf? ==>
              ItemText(ic[i]) == Quoted(ic[i].key) + ": \"${item." + ic[i].node.field + "}\""
    ensures forall i :: 0 <= i < |ic| && ic[i].node.Nested? && !HasKey(ic[i].node.entries, "field") ==>
              ItemText(ic[i]) == Quoted(ic[i].key) + ": \"${item.undefined}\""
  {
  }

  lemma MissingItemConfigFails(key: string, field: string, d: Value, formatItem: Option<string -> string>)
    ensures RenderLeaf(key, Leaf(field, ObjectArrayType, d, formatItem, None)) == Failure(MissingItemConfig(field))
  {
  }

  lemma ObjectArrayBody(field: string, d: Value, formatItem: Option<string -> string>, ic: Config)
    ensures var items := seq(|ic|, i requires 0 <= i < |ic| =>
                           Quoted(ic[i].key) + ": \"${item." + ItemField(ic[i].node) + "}\"");
            LeafBody(Leaf(field, ObjectArrayType, d, formatItem, Some(ic)))
              == Success("[" + (ListOpen(field) + "{\n" + Spaces(16) + Join(items, ", ")
                                + "\n" + Spaces(12) + "}" + ListSeparator) + "]")
  {
    var items := seq(|ic|, i requires 0 <= i < |ic| => ItemText(ic[i]));
    assert items == seq(|ic|, i requires 0 <= i < |ic| =>
                          Quoted(ic[i].key) + ": \"${item." + ItemField(ic[i].node) + "}\"");
  }

  /** A `number[]` leaf with no default list fails, while a `string[]` leaf without one
      falls back to `[]`. */
  lemma MissingListDefault(key: string, field: string, d: Value, formatItem: Option<string -> string>)
    requires IsNullish(d)
    ensures RenderLeaf(key, Leaf(field, NumberArrayType, d, formatItem, None)).Failure?
    ensures var items := ListOpen(field) + "\"${" + ItemExpression(formatItem) + "}\"" + ListSeparator;
            RenderLeaf(key, Leaf(field, StringArrayType, d, formatItem, None))
              == Success(Quoted(key) + ": " + (HasContent(field) + "[" + items + "]" + ElseTag + "[]" + EndIfTag))
  {
    var n := Leaf(field, StringArrayType, d, formatItem, None);
    assert Coalesce(n.default, Arr([])) == Arr([]);
    assert StringDefaults([]) == "";
    var items := ListOpen(field) + "\"${" + ItemExpression(formatItem) + "}\"" + ListSeparator;
    var pre := HasContent(field) + "[" + items + "]" + ElseTag;
    assert LeafBody(n) == Success(pre + "[" + "" + "]" + EndIfTag);
    assert pre + "[" + "" + "]" == pre + "[]";
  }

  /** The values of a list of results when all succeed, else the first failure. */
  function AllSucceed<T, E>(rs: seq<Result<T, E>>): (r: Result<seq<T>, E>)
    ensures r.Success? <==> forall i :: 0 <= i < |rs| ==> rs[i].Success?
    ensures r.Success? ==> |r.value| == |rs| && forall i :: 0 <= i < |rs| ==> rs[i] == Success(r.value[i])
    ensures r.Failure? ==> exists i :: 0 <= i < |rs| && rs[i] == Failure(r.error)
                                       && forall j :: 0 <= j < i ==> rs[j].Success?
  {
    if |rs| == 0 then Success([])
    else
      match rs[0]
      case Failure(err) => Failure(err)
      case Success(t) =>
        TailIndices(rs);
        match AllSucceed(rs[1..])
        case Failure(err) =>
          FailureInTail(rs, err);
          Failure(err)
        case Success(ts) => Success([t] + ts)
  }

  lemma TailIndices<T>(rs: seq<T>)
    requires |rs| > 0
    ensures forall i :: 1 <= i < |rs| ==> rs[i] == rs[1..][i - 1]
  {
  }

  /** A first failure in the tail, after a success, is a first failure of the whole. */
  lemma FailureInTail<T, E>(rs: seq<Result<T, E>>, err: E)
    requires |rs| > 0 && rs[0].Success?
    requires exists k :: 0 <= k < |rs[1..]| && rs[1..][k] == Failure(err)
                         && forall j :: 0 <= j < k ==> rs[1..][j].Success?
    ensures exists i :: 0 <= i < |rs| && rs[i] == Failure(err) && forall j :: 0 <= j < i ==> rs[j].Success?
  {
    var k :| 0 <= k < |rs[1..]| && rs[1..][k] == Failure(err) && forall j :: 0 <= j < k ==> rs[1..][j].Success?;
    assert rs[k + 1] == Failure(err);
    assert forall j :: 1 <= j < k + 1 ==> rs[j] == rs[1..][j - 1];
  }
}
