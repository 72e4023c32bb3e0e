/** The field types of the dehydrator. A field is parsed once from one entry
    of a dehydrator's specification and then knows the key it contributes to
    the dehydrated mapping and how to fetch the value for that key from an
    object. */
module Fields {
  import opened PyValues

  /** Keys a ComplexField reads from its target description. */
  const TARGET_FIELD_NAME: string := "target"
  const ITERABLE_FLAG_FIELD_NAME: string := "iterable"
  const DEHYDRATOR_FIELD_NAME: string := "dehydrator"
  const FIELDS_FIELD_NAME: string := "fields"

  /** The class a ComplexField nests with when its description names none. */
  const DEFAULT_DEHYDRATOR_CLASS: string := "Dehydrator"

  /** The two registered field types. */
  datatype FieldKind = SimpleField | ComplexField

  /** `__class__.__name__` of a field. */
  function ClassName(kind: FieldKind): string
  {
    match kind
    case SimpleField => "SimpleField"
    case ComplexField => "ComplexField"
  }

  /** What a field sees of the dehydrator that owns it: the getter prefix
      and the names of the members it has. */
  datatype Owner = Owner(getterPrefix: string, members: set<string>)

  /** A parsed field. Its three attributes are written once, when the field
      is built, and never change. */
  datatype Field = Field(kind: FieldKind, dehydrator: Owner, targetInfo: Value, substitution: Value)

  /** What `resolve_target` hands back, by the branch that produced it: a
      getter method of the dehydrator, a callable member of the object, a
      deferred read built from the value of a non-callable member, or
      nothing at all (Python's `None`). */
  datatype Getter =
    | DehydratorGetter(name: string)
    | ObjectMethod(name: string)
    | AttrThunk(attribute: Value)
    | NoGetter

  // Shape predicates.

  /** `isinstance(v, basestring)`: a string, which is iterable too. */
  predicate IsString(v: Value)
    ensures IsString(v) ==> Iterable(v) && !v.Dict?
  {
    v.Str?
  }

  /** `isinstance(v, Mapping)`: iterating a mapping visits its keys. */
  predicate IsDict(v: Value)
    ensures IsDict(v) ==> v.Dict? && Iterable(v) && Elements(v) == Keys(v.entries)
  {
    v.Dict?
  }

  /** `isinstance(v, Iterable)`: the strings, lists, tuples and mappings. */
  predicate IsIterable(v: Value)
    ensures IsIterable(v) <==> v.Str? || v.Dict? || v.Seq?
  {
    Iterable(v)
  }

  /** A pair by length alone: a two-character string and a mapping with two
      keys are pairs too. A pair unpacks into exactly two elements. */
  predicate IsPair(v: Value)
    ensures IsPair(v) ==> IsIterable(v) && |Elements(v)| == 2
    ensures IsString(v) && |v.s| == 2 ==> IsPair(v)
    ensures IsDict(v) && |v.entries| == 2 ==> IsPair(v)
  {
    IsIterable(v) && Len(v) == 2
  }

  predicate AllStrings(vs: seq<Value>)
  {
    forall i :: 0 <= i < |vs| ==> IsString(vs[i])
  }

  // Relevance: which field type claims a raw specification.

  /** SimpleField claims a name, or a pair whose elements are all strings:
      every string, and otherwise only iterables of length two. */
  predicate SimpleIsRelevant(spec: Value)
    ensures IsString(spec) ==> SimpleIsRelevant(spec)
    ensures SimpleIsRelevant(spec) ==> IsIterable(spec)
    ensures SimpleIsRelevant(spec) && !IsString(spec) ==> Len(spec) == 2
  {
    if IsString(spec) then true
    else IsPair(spec) && AllStrings(Elements(spec))
  }

  /** ComplexField claims a mapping, or a pair of a mapping and a string.
      `spec[0]` and `spec[1]` of a string, list or tuple are its elements.
      Every mapping is claimed, and no string is. */
  predicate ComplexIsRelevant(spec: Value)
    ensures IsDict(spec) ==> ComplexIsRelevant(spec)
    ensures ComplexIsRelevant(spec) ==> IsIterable(spec) && !IsString(spec)
  {
    if IsDict(spec) then true
    else IsPair(spec) && IsDict(Elements(spec)[0]) && IsString(Elements(spec)[1])
  }

  /** The relevance predicate of a field type. */
  predicate IsRelevant(kind: FieldKind, spec: Value)
  {
    match kind
    case SimpleField => SimpleIsRelevant(spec)
    case ComplexField => ComplexIsRelevant(spec)
  }

  // Parsing.

  /** The message of the error raised for a description without `target`. */
  function TargetRequiredMessage(className: string): string
  {
    "'" + TARGET_FIELD_NAME + "' field is required in specification of " + className
  }

  /** The validation hook: the base hook accepts everything; ComplexField
      demands that `'target' in target_info` hold, and any exception that
      membership test raises escapes the hook. */
  function ValidateTargetInfo(kind: FieldKind, targetInfo: Value): (r: Outcome<Exc>)
    ensures kind == SimpleField ==> r == Pass
    ensures kind == ComplexField ==> (r == Pass <==> Contains(targetInfo, TARGET_FIELD_NAME) == Ok(true))
    ensures kind == ComplexField && Contains(targetInfo, TARGET_FIELD_NAME) == Ok(false) ==>
              r == Fail(SpecParsingError(TargetRequiredMessage("ComplexField")))
    ensures kind == ComplexField && Contains(targetInfo, TARGET_FIELD_NAME).Err? ==>
              r == Fail(Contains(targetInfo, TARGET_FIELD_NAME).error)
  {
    match kind
    case SimpleField => Pass
    case ComplexField =>
      match Contains(targetInfo, TARGET_FIELD_NAME)
      case Err(e) => Fail(e)
      case Ok(found) =>
        if found then Pass else Fail(SpecParsingError(TargetRequiredMessage(ClassName(kind))))
  }

  /** Splits a specification into `(target_info, substitution)`: a pair is
      unpacked by iterating it, anything else is the target description with
      no substitution. Whatever the validation hook raises comes out as a
      SpecParsingError with the same message. */
  function ParseSpec(kind: FieldKind, spec: Value): (r: Result<(Value, Value), Exc>)
    ensures kind == SimpleField ==> r.Ok?
    ensures r.Err? ==> r.error.SpecParsingError?
    ensures r.Ok? ==> ValidateTargetInfo(kind, r.value.0) == Pass
    ensures r.Err? ==> exists e :: ValidateTargetInfo(kind, if IsPair(spec) then Elements(spec)[0] else spec) == Fail(e)
                                   && r.error.message == e.message
  {
    var targetInfo := if IsPair(spec) then Elements(spec)[0] else spec;
    var substitution := if IsPair(spec) then Elements(spec)[1] else NoneV;
    match ValidateTargetInfo(kind, targetInfo)
    case Pass => Ok((targetInfo, substitution))
    case Fail(e) => Err(SpecParsingError(e.message))
  }

  /** `Field.__init__`: keeps the owning dehydrator and the parsed spec. */
  function NewField(kind: FieldKind, owner: Owner, spec: Value): (r: Result<Field, Exc>)
    ensures r.Ok? <==> ParseSpec(kind, spec).Ok?
    ensures r.Ok? ==> r.value.kind == kind && r.value.dehydrator == owner
                      && (r.value.targetInfo, r.value.substitution) == ParseSpec(kind, spec).value
    ensures r.Err? ==> r.error == ParseSpec(kind, spec).error
  {
    var parsed :- ParseSpec(kind, spec);
    Ok(Field(kind, owner, parsed.0, parsed.1))
  }

  // Properties of a parsed field.

  /** The name the field reads: the target description itself for a
      SimpleField, its `target` entry for a ComplexField. */
  function Target(f: Field): (r: Result<Value, Exc>)
    ensures f.kind == SimpleField ==> r == Ok(f.targetInfo)
    ensures f.kind == ComplexField ==>
              (r.Ok? <==> f.targetInfo.Dict? && Str(TARGET_FIELD_NAME) in Keys(f.targetInfo.entries))
    ensures f.kind == ComplexField && r.Ok? ==>
              Lookup(f.targetInfo.entries, Str(TARGET_FIELD_NAME)) == Some(r.value)
  {
    match f.kind
    case SimpleField => Ok(f.targetInfo)
    case ComplexField => Subscript(f.targetInfo, TARGET_FIELD_NAME)
  }

  /** ComplexField's `is_iterable`: the `iterable` entry, `False` if absent. */
  function IsIterableFlag(f: Field): (r: Result<Value, Exc>)
    requires f.kind == ComplexField
    ensures r.Ok? <==> f.targetInfo.Dict?
    ensures f.targetInfo.Dict? && Str(ITERABLE_FLAG_FIELD_NAME) !in Keys(f.targetInfo.entries) ==>
              r == Ok(BoolV(false))
    ensures f.targetInfo.Dict? && Str(ITERABLE_FLAG_FIELD_NAME) in Keys(f.targetInfo.entries) ==>
              Some(r.value) == Lookup(f.targetInfo.entries, Str(ITERABLE_FLAG_FIELD_NAME))
  {
    GetOr(f.targetInfo, ITERABLE_FLAG_FIELD_NAME, BoolV(false))
  }

  /** ComplexField's `dehydrator_cls`: the `dehydrator` entry, the base
      Dehydrator class if absent. */
  function DehydratorCls(f: Field): (r: Result<Value, Exc>)
    requires f.kind == ComplexField
    ensures r.Ok? <==> f.targetInfo.Dict?
    ensures f.targetInfo.Dict? && Str(DEHYDRATOR_FIELD_NAME) !in Keys(f.targetInfo.entries) ==>
              r == Ok(Class(DEFAULT_DEHYDRATOR_CLASS))
    ensures f.targetInfo.Dict? && Str(DEHYDRATOR_FIELD_NAME) in Keys(f.targetInfo.entries) ==>
              Some(r.value) == Lookup(f.targetInfo.entries, Str(DEHYDRATOR_FIELD_NAME))
  {
    GetOr(f.targetInfo, DEHYDRATOR_FIELD_NAME, Class(DEFAULT_DEHYDRATOR_CLASS))
  }

  /** ComplexField's `fields`: the `fields` entry, `None` if absent. */
  function NestedFields(f: Field): (r: Result<Value, Exc>)
    requires f.kind == ComplexField
    ensures r.Ok? <==> f.targetInfo.Dict?
    ensures f.targetInfo.Dict? && Str(FIELDS_FIELD_NAME) !in Keys(f.targetInfo.entries) ==>
              r == Ok(NoneV)
    ensures f.targetInfo.Dict? && Str(FIELDS_FIELD_NAME) in Keys(f.targetInfo.entries) ==>
              Some(r.value) == Lookup(f.targetInfo.entries, Str(FIELDS_FIELD_NAME))
  {
    GetOr(f.targetInfo, FIELDS_FIELD_NAME, NoneV)
  }

  /** The output key: the substitution when it is truthy, else the target. */
  function BuildKey(f: Field): (r: Result<Value, Exc>)
    ensures Truthy(f.substitution) ==> r == Ok(f.substitution)
    ensures !Truthy(f.substitution) ==> r == Target(f)
  {
    if Truthy(f.substitution) then Ok(f.substitution) else Target(f)
  }

  // Getter resolution.

  /** `hasattr(obj, name)`. */
  predicate HasMember(obj: Value, name: string)
  {
    obj.Object? && name in obj.members
  }

  /** Finds the getter for `targetName`, in priority order: the dehydrator's
      member named by the getter prefix followed by the name, then the
      object's member of that name (as it is when callable, as a deferred
      read of its value when not), then nothing. A name that is not a
      string cannot be appended to the prefix. */
  function ResolveTarget(owner: Owner, obj: Value, targetName: Value): (r: Result<Getter, Exc>)
    ensures r.Err? <==> !targetName.Str?
    ensures r.Ok? ==> (r.value.DehydratorGetter? <==> owner.getterPrefix + targetName.s in owner.members)
    ensures r.Ok? ==> (r.value == NoGetter <==>
                         owner.getterPrefix + targetName.s !in owner.members && !HasMember(obj, targetName.s))
  {
    match targetName
    case Str(name) =>
      var getterName := owner.getterPrefix + name;
      if getterName in owner.members then Ok(DehydratorGetter(getterName))
      else if HasMember(obj, name) then
        var member := obj.members[name];
        if member.callable then Ok(ObjectMethod(name)) else Ok(AttrThunk(member.value))
      else Ok(NoGetter)
    case _ => Err(TypeError("coercing to Unicode: need string or buffer"))
  }

  // Building values. Calling a getter and dehydrating with a nested
  // dehydrator are left abstract: `call(g, obj)` is `g(obj)`, and
  // `nested(cls, fields, x)` is `cls(fields=fields).dehydrate(x)`.

  /** Resolves the getter for the field's target and calls it with `obj`;
      calling the `None` that a failed resolution yields is a TypeError. */
  function FetchTarget(f: Field, obj: Value, call: (Getter, Value) -> Value): (r: Result<Value, Exc>)
    ensures Target(f).Ok? && ResolveTarget(f.dehydrator, obj, Target(f).value).Ok? ==>
              (r.Ok? <==> ResolveTarget(f.dehydrator, obj, Target(f).value).value != NoGetter)
    ensures r.Ok? ==> Target(f).Ok? && ResolveTarget(f.dehydrator, obj, Target(f).value).Ok?
                      && r.value == call(ResolveTarget(f.dehydrator, obj, Target(f).value).value, obj)
  {
    var target :- Target(f);
    var getter :- ResolveTarget(f.dehydrator, obj, target);
    if getter.NoGetter? then Err(TypeError("'NoneType' object is not callable"))
    else Ok(call(getter, obj))
  }

  /** SimpleField's `build_value`: the getter's result, unchanged. It fails
      exactly when the name is not a string or resolves to nothing. */
  function SimpleBuildValue(f: Field, obj: Value, call: (Getter, Value) -> Value): (r: Result<Value, Exc>)
    requires f.kind == SimpleField
    ensures r.Ok? <==> f.targetInfo.Str? && ResolveTarget(f.dehydrator, obj, f.targetInfo) != Ok(NoGetter)
    ensures r.Ok? ==> r.value == call(ResolveTarget(f.dehydrator, obj, f.targetInfo).value, obj)
  {
    FetchTarget(f, obj, call)
  }

  /** ComplexField's `build_value`: with the `iterable` flag set, a list with
      one nested dehydration per element of the fetched target, in order;
      otherwise one nested dehydration of `obj` itself. */
  function ComplexBuildValue(f: Field, obj: Value, call: (Getter, Value) -> Value,
                             nested: (Value, Value, Value) -> Value): (r: Result<Value, Exc>)
    requires f.kind == ComplexField
    ensures FetchTarget(f, obj, call).Err? ==> r == Err(FetchTarget(f, obj, call).error)
    ensures r.Ok? ==> FetchTarget(f, obj, call).Ok? && DehydratorCls(f).Ok? && NestedFields(f).Ok?
  {
    match FetchTarget(f, obj, call)
    case Err(e) => Err(e)
    case Ok(value) =>
      match DehydratorCls(f)
      case Err(e) => Err(e)
      case Ok(cls) =>
        match NestedFields(f)
        case Err(e) => Err(e)
        case Ok(fields) =>
          match IsIterableFlag(f)
          case Err(e) => Err(e)
          case Ok(iterable) =>
            if Truthy(iterable) then
              if IsIterable(value) then
                var es := Elements(value);
                Ok(Seq(seq(|es|, i requires 0 <= i < |es| => nested(cls, fields, es[i])), false))
              else Err(TypeError("argument 2 to map() must support iteration"))
            else Ok(nested(cls, fields, obj))
  }
}
