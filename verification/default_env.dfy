/** `buildDefaultEnvironment`: the environment a development build uses when the page
    was not served through FreeMarker — the configuration's own shape with every leaf
    replaced by its default, or by the type's empty value when the default is
    `null` or `undefined`. */
module DefaultEnvironment {
  import opened Wrappers
  import opened JsValues
  import opened EnvConfig

  /** `throw new Error("unsupported field type")` */
  datatype DefaultError = UnsupportedFieldType

  /** The value a leaf of the given type takes when its default is missing. */
  function EmptyValue(kind: FtlType): Value
    requires !kind.OtherType?
  {
    match kind
    case StringType => Str("")
    case NumberType => Num(0)
    case BooleanType => Bool(false)
    case NumberArrayType => Arr([])
    case StringArrayType => Arr([])
    case ObjectArrayType => Arr([])
  }

  /** An entry the default builder accepts: a leaf of a supported type, or a nested
      object (not shaped like a leaf) whose entries are all accepted. */
  predicate SupportedEntry(e: Entry)
    decreases e, 1
  {
    if LooksLikeLeaf(e.node) then e.node.Leaf? && !e.node.kind.OtherType?
    else Supported(e.node.entries)
  }

  predicate Supported(c: Config)
    decreases c, 0
  {
    forall i :: 0 <= i < |c| ==> SupportedEntry(c[i])
  }

  /** `props` has the keys of `c` in the same order, each leaf holding its default or
      the empty value of its type, each nested object mirrored by a nested object. */
  ghost predicate Mirrors(c: Config, props: seq<(string, Value)>)
    decreases c
  {
    && |props| == |c|
    && forall i :: 0 <= i < |c| ==>
         && props[i].0 == c[i].key
         && (c[i].node.Leaf? && !c[i].node.kind.OtherType? ==>
               props[i].1 == Coalesce(c[i].node.default, EmptyValue(c[i].node.kind)))
         && (c[i].node.Nested? ==> props[i].1.Obj? && Mirrors(c[i].node.entries, props[i].1.props))
  }

  /** The value `buildObject` stores under one key. */
  function DefaultOf(e: Entry): Result<Value, DefaultError>
    decreases e, 1
  {
    if LooksLikeLeaf(e.node) then
      if e.node.Leaf? && !e.node.kind.OtherType? then
        Success(Coalesce(e.node.default, EmptyValue(e.node.kind)))
      else Failure(UnsupportedFieldType)
    else
      match BuildObject(e.node.entries)
      case Success(props) => Success(Obj(props))
      case Failure(err) => Failure(err)
  }

  /** `buildObject(obj)`: the entries reduced, in order, into a fresh object. */
  function BuildObject(c: Config): (r: Result<seq<(string, Value)>, DefaultError>)
    decreases c, 0
    ensures r.Success? <==> Supported(c)
    ensures r.Success? ==> Mirrors(c, r.value)
  {
    if |c| == 0 then Success([])
    else
      match DefaultOf(c[0])
      case Failure(err) =>
        DefaultOfFailsUnsupported(c[0]);
        Failure(err)
      case Success(v) =>
        match BuildObject(c[1..])
        case Failure(err) =>
          assert !Supported(c[1..]);
          Failure(err)
        case Success(props) =>
          DefaultOfSucceedsMirrors(c[0]);
          assert forall i :: 1 <= i < |c| ==> c[i] == c[1..][i - 1];
          Success([(c[0].key, v)] + props)
  }

  lemma DefaultOfFailsUnsupported(e: Entry)
    requires DefaultOf(e).Failure?
    ensures !SupportedEntry(e)
    decreases e, 2
  {
    if !LooksLikeLeaf(e.node) {
      var _ := BuildObject(e.node.entries);
    }
  }

  lemma DefaultOfSucceedsMirrors(e: Entry)
    requires DefaultOf(e).Success?
    ensures SupportedEntry(e)
    ensures e.node.Leaf? && !e.node.kind.OtherType? ==>
              DefaultOf(e).value == Coalesce(e.node.default, EmptyValue(e.node.kind))
    ensures e.node.Nested? ==> DefaultOf(e).value.Obj? && Mirrors(e.node.entries, DefaultOf(e).value.props)
    decreases e, 2
  {
    if !LooksLikeLeaf(e.node) {
      var _ := BuildObject(e.node.entries);
    }
  }

  /** `buildDefaultEnvironment(config)` */
  function BuildDefaultEnvironment(config: Config): (r: Result<Value, DefaultError>)
    ensures r.Success? <==> Supported(config)
    ensures r.Success? ==> r.value.Obj? && Mirrors(config, r.value.props)
  {
    match BuildObject(config)
    case Success(props) => Success(Obj(props))
    case Failure(err) => Failure(err)
  }
}
