/** The environment configuration of a theme page: a tree whose inner nodes are plain
    objects of named children and whose leaves (`FtlBaseConfig`) name a FreeMarker
    variable, the JavaScript type it is exposed as and a default value. The `ftl*`
    helpers build leaves, choosing the default according to the build's `DEV` flag. */
module EnvConfig {
  import opened Wrappers
  import opened JsValues

  /** The `type` tag of a leaf. `OtherType` stands for a tag the tool does not
      support; a supported tag is always written with its own constructor, so
      `OtherType("string")` does not occur in a configuration (see `CanonicalType`). */
  datatype FtlType =
    | StringType
    | NumberType
    | BooleanType
    | StringArrayType
    | ObjectArrayType
    | NumberArrayType
    | OtherType(tag: string)

  /** The tags the tool supports are never carried by `OtherType`. */
  predicate CanonicalType(t: FtlType) {
    t.OtherType? ==> t.tag !in ["string", "number", "boolean", "string[]", "object[]", "number[]"]
  }

  /** The `type` string a leaf carries. */
  function TagOf(t: FtlType): string {
    match t
    case StringType => "string"
    case NumberType => "number"
    case BooleanType => "boolean"
    case StringArrayType => "string[]"
    case ObjectArrayType => "object[]"
    case NumberArrayType => "number[]"
    case OtherType(tag) => tag
  }

  /** The `switch (value.type)` of the serialiser: a `type` string read as a leaf type,
      every string outside the six cases falling to `default`. */
  function TypeOfTag(tag: string): (t: FtlType)
    ensures CanonicalType(t)
    ensures TagOf(t) == tag
  {
    if tag == "string" then StringType
    else if tag == "number" then NumberType
    else if tag == "boolean" then BooleanType
    else if tag == "string[]" then StringArrayType
    else if tag == "object[]" then ObjectArrayType
    else if tag == "number[]" then NumberArrayType
    else OtherType(tag)
  }

  /** Reading back the tag of a canonical type gives the type again, so a canonical
      type and its tag determine each other. */
  lemma TagRoundTrip(t: FtlType)
    requires CanonicalType(t)
    ensures TypeOfTag(TagOf(t)) == t
  {
    if t.OtherType? {
      assert t.tag != "string" && t.tag != "number" && t.tag != "boolean";
      assert t.tag != "string[]" && t.tag != "object[]" && t.tag != "number[]";
    }
  }

  /** A configuration object, its own properties in enumeration order. */
  type Config = seq<Entry>

  datatype Entry = Entry(key: string, node: Node)

  /** A child of a configuration object: a leaf carrying `field` and `type`, or a
      nested configuration object. */
  datatype Node =
    | Leaf(field: string, kind: FtlType, default: Value,
           formatItem: Option<string -> string>, itemConfig: Option<Config>)
    | Nested(entries: Config)

  predicate HasKey(c: Config, key: string) {
    exists i :: 0 <= i < |c| && c[i].key == key
  }

  /** `"field" in value && "type" in value`: every leaf, and also a nested object that
      happens to have children named `field` and `type`. */
  predicate LooksLikeLeaf(n: Node) {
    n.Leaf? || (HasKey(n.entries, "field") && HasKey(n.entries, "type"))
  }

  /** The `formatItem` installed when none is given: it returns the item name as is. */
  function IdentityFormat(item: string): string {
    item
  }

  /** `ftlString`: with `DEV` the default is `debug` as given (possibly missing), otherwise
      `default` as given, with no fallback. */
  function FtlString(field: string, default: Nullable<string>, debug: Nullable<string>, dev: bool): (n: Node)
    ensures n.Leaf? && n.field == field && n.kind == StringType
    ensures n.formatItem.None? && n.itemConfig.None?
    ensures var chosen := if dev then debug else default;
            && (chosen.Given? ==> n.default == Str(chosen.value))
            && (chosen.Null? ==> n.default == NullV)
            && (chosen.Undefined? ==> n.default == Undef)
  {
    Leaf(field, StringType, Lift(if dev then debug else default, s => Str(s)), None, None)
  }

  /** `ftlNumber`: with `DEV` the default is `debug` as given, otherwise `default ?? 0`. */
  function FtlNumber(field: string, default: Nullable<int>, debug: Nullable<int>, dev: bool): (n: Node)
    ensures n.Leaf? && n.field == field && n.kind == NumberType
    ensures dev ==> n.default == Lift(debug, x => Num(x))
    ensures !dev ==> n.default == Num(if default.Given? then default.value else 0)
  {
    var d := if dev then Lift(debug, x => Num(x)) else Coalesce(Lift(default, x => Num(x)), Num(0));
    Leaf(field, NumberType, d, None, None)
  }

  /** `ftlBoolean`: with `DEV` the default is `debug` as given, otherwise `default ?? false`. */
  function FtlBoolean(field: string, default: Nullable<bool>, debug: Nullable<bool>, dev: bool): (n: Node)
    ensures n.Leaf? && n.field == field && n.kind == BooleanType
    ensures dev ==> n.default == Lift(debug, b => Bool(b))
    ensures !dev ==> n.default == Bool(default.Given? && default.value)
  {
    var d := if dev then Lift(debug, b => Bool(b)) else Coalesce(Lift(default, b => Bool(b)), Bool(false));
    Leaf(field, BooleanType, d, None, None)
  }

  /** `ftlObjectArray`: with `DEV` the default is `debug` as given, otherwise
      `default ?? []`; the item configuration is kept. */
  function FtlObjectArray(field: string, default: Nullable<seq<Value>>, debug: Nullable<seq<Value>>,
                          itemConfig: Config, dev: bool): (n: Node)
    ensures n.Leaf? && n.field == field && n.kind == ObjectArrayType && n.itemConfig == Some(itemConfig)
    ensures dev ==> n.default == Lift(debug, xs => Arr(xs))
    ensures !dev ==> n.default == Arr(if default.Given? then default.value else [])
  {
    var d := if dev then Lift(debug, xs => Arr(xs)) else Coalesce(Lift(default, xs => Arr(xs)), Arr([]));
    Leaf(field, ObjectArrayType, d, None, Some(itemConfig))
  }

  function NumArray(xs: seq<int>): (v: Value)
    ensures v.Arr? && |v.items| == |xs| && forall i :: 0 <= i < |xs| ==> v.items[i] == Num(xs[i])
  {
    Arr(seq(|xs|, i requires 0 <= i < |xs| => Num(xs[i])))
  }

  function StrArray(xs: seq<string>): (v: Value)
    ensures v.Arr? && |v.items| == |xs| && forall i :: 0 <= i < |xs| ==> v.items[i] == Str(xs[i])
  {
    Arr(seq(|xs|, i requires 0 <= i < |xs| => Str(xs[i])))
  }

  /** `ftlNumberArray`: with `DEV` the default is `debug` as given, otherwise
      `default ?? []`; a missing `formatItem` becomes one that returns the item name. */
  function FtlNumberArray(field: string, default: Nullable<seq<int>>, debug: Nullable<seq<int>>,
                          formatItem: Option<string -> string>, dev: bool): (n: Node)
    ensures n.Leaf? && n.field == field && n.kind == NumberArrayType && n.formatItem.Some?
    ensures formatItem.Some? ==> n.formatItem == formatItem
    ensures formatItem.None? ==> forall item :: n.formatItem.value(item) == item
    ensures dev ==> n.default == Lift(debug, NumArray)
    ensures !dev ==> n.default == NumArray(if default.Given? then default.value else [])
  {
    var d := if dev then Lift(debug, NumArray) else Coalesce(Lift(default, NumArray), NumArray([]));
    var f := if formatItem.Some? then formatItem.value else IdentityFormat;
    Leaf(field, NumberArrayType, d, Some(f), None)
  }

  /** `ftlStringArray`: with `DEV` the default is `debug` as given, otherwise
      `default ?? []`; a missing `formatItem` becomes one that returns the item name. */
  function FtlStringArray(field: string, default: Nullable<seq<string>>, debug: Nullable<seq<string>>,
                          formatItem: Option<string -> string>, dev: bool): (n: Node)
    ensures n.Leaf? && n.field == field && n.kind == StringArrayType && n.formatItem.Some?
    ensures formatItem.Some? ==> n.formatItem == formatItem
    ensures formatItem.None? ==> forall item :: n.formatItem.value(item) == item
    ensures dev ==> n.default == Lift(debug, StrArray)
    ensures !dev ==> n.default == StrArray(if default.Given? then default.value else [])
  {
    var d := if dev then Lift(debug, StrArray) else Coalesce(Lift(default, StrArray), StrArray([]));
    var f := if formatItem.Some? then formatItem.value else IdentityFormat;
    Leaf(field, StringArrayType, d, Some(f), None)
  }
}
