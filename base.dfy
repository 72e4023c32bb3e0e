/** The Dehydrator: it holds a list of specifications and, for an object,
    produces one (key, value) pair per specification by wrapping the
    specification in the spec class `S`, picking the handler registered for
    the spec's type, and asking that handler for the key and the value. */
module Base {
  import opened PyValues
  import Fields

  /** The prefix of the names of a dehydrator's own getter methods. */
  const GETTER_PREFIX: string := "get_"

  /** An instance of the spec class `S`: the strings it was built from and
      the handler type it names. */
  datatype S = S(args: seq<string>, specType: string)

  /** One entry of a dehydrator's `specs`: a plain Python value, or an
      instance of `S`. */
  datatype Spec = Raw(v: Value) | Wrapped(s: S)

  /** A handler class registered under a spec type. */
  datatype HandlerClass = HandlerClass(name: string)

  /** A handler built for one spec. */
  datatype Handler = Handler(cls: HandlerClass, spec: S)

  /** The collaborators this core only calls: how `S` derives the type of a
      spec from its arguments, the handler registry, and what a handler
      answers to `build_key()` and `build_value(obj)`. */
  datatype Collaborators = Collaborators(
    typeOf: seq<string> -> string,
    registry: map<string, HandlerClass>,
    buildKey: Handler -> Value,
    buildValue: (Handler, Value) -> Value)

  datatype DehydrateError = UnknownSpecFormat(spec: Value) | HandlerNotFound(missingType: string)

  /** A tuple of exactly two strings. */
  predicate IsTwoStrTuple(v: Value)
  {
    v.Seq? && v.isTuple && |v.items| == 2 && v.items[0].Str? && v.items[1].Str?
  }

  /** `specs or cls.specs or ()`: the argument when it is a non-empty list,
      else the class-level list when that is non-empty, else nothing. */
  function InitialSpecs(arg: Option<seq<Spec>>, classSpecs: Option<seq<Spec>>): (r: seq<Spec>)
    ensures arg.Some? && arg.value != [] ==> r == arg.value
    ensures (arg.None? || arg.value == []) && classSpecs.Some? && classSpecs.value != [] ==> r == classSpecs.value
    ensures r == [] <==> (arg.None? || arg.value == []) && (classSpecs.None? || classSpecs.value == [])
  {
    if arg.Some? && arg.value != [] then arg.value
    else if classSpecs.Some? && classSpecs.value != [] then classSpecs.value
    else []
  }

  /** Wraps a specification in `S`, trying in turn: a string, a tuple of two
      strings, an `S` already; anything else is an unknown format. */
  function WrapSpec(typeOf: seq<string> -> string, spec: Spec): (r: Result<S, DehydrateError>)
    ensures r.Err? <==> spec.Raw? && !spec.v.Str? && !IsTwoStrTuple(spec.v)
    ensures r.Err? ==> r.error == UnknownSpecFormat(spec.v)
    ensures spec.Wrapped? ==> r == Ok(spec.s)
    ensures r.Ok? && spec.Raw? ==> r.value.specType == typeOf(r.value.args)
  {
    match spec
    case Raw(v) =>
      if v.Str? then Ok(S([v.s], typeOf([v.s])))
      else if IsTwoStrTuple(v) then
        var args := [v.items[0].s, v.items[1].s];
        Ok(S(args, typeOf(args)))
      else Err(UnknownSpecFormat(v))
    case Wrapped(s) => Ok(s)
  }

  /** The plain specification an `S` built from one or two strings stands
      for: the name, or the (name, substitution) tuple. */
  function Unwrap(s: S): (v: Value)
    requires |s.args| == 1 || |s.args| == 2
  {
    if |s.args| == 1 then Str(s.args[0]) else Seq([Str(s.args[0]), Str(s.args[1])], true)
  }

  /** Picks the handler class registered for the spec's type and builds a
      handler for the spec; an unregistered type is an error. */
  function SelectHandler(registry: map<string, HandlerClass>, s: S): (r: Result<Handler, DehydrateError>)
    ensures r.Err? <==> s.specType !in registry
    ensures r.Err? ==> r.error == HandlerNotFound(s.specType)
    ensures r.Ok? ==> r.value.spec == s && r.value.cls == registry[s.specType]
  {
    if s.specType !in registry then Err(HandlerNotFound(s.specType))
    else Ok(Handler(registry[s.specType], s))
  }

  /** The (key, value) pair one specification contributes for `obj`. */
  function DehydrateSpec(env: Collaborators, obj: Value, spec: Spec): (r: Result<(Value, Value), DehydrateError>)
    ensures r.Ok? <==> WrapSpec(env.typeOf, spec).Ok? && WrapSpec(env.typeOf, spec).value.specType in env.registry
    ensures r.Ok? ==>
              var s := WrapSpec(env.typeOf, spec).value;
              var h := Handler(env.registry[s.specType], s);
              r.value == (env.buildKey(h), env.buildValue(h, obj))
    ensures r.Err? && WrapSpec(env.typeOf, spec).Ok? ==>
              r.error == HandlerNotFound(WrapSpec(env.typeOf, spec).value.specType)
  {
    match WrapSpec(env.typeOf, spec)
    case Err(e) => Err(e)
    case Ok(s) =>
      match SelectHandler(env.registry, s)
      case Err(e) => Err(e)
      case Ok(handler) => Ok((env.buildKey(handler), env.buildValue(handler, obj)))
  }

  class Dehydrator {
    /** The specifications this dehydrator turns into pairs, in order. */
    var specs: seq<Spec>
    /** The names of the members the dehydrator's class defines. */
    const members: set<string>
    const env: Collaborators

    /** `__init__`: falls back from the argument to the class-level specs to
        an empty list. */
    constructor (specs: Option<seq<Spec>>, classSpecs: Option<seq<Spec>>, members: set<string>, env: Collaborators)
      ensures this.specs == InitialSpecs(specs, classSpecs)
      ensures this.members == members && this.env.registry == env.registry
      ensures this.env.typeOf == env.typeOf && this.env.buildKey == env.buildKey && this.env.buildValue == env.buildValue
    {
      this.specs := InitialSpecs(specs, classSpecs);
      this.members := members;
      this.env := env;
    }

    /** What the fields of this dehydrator see of it. */
    function View(): (o: Fields.Owner)
      ensures o.getterPrefix == GETTER_PREFIX && o.members == members
    {
      Fields.Owner(GETTER_PREFIX, members)
    }

    /** One (key, value) pair per specification, in specification order; the
        first specification that cannot be dehydrated stops the run with
        its error. */
    method Dehydrate(obj: Value) returns (r: Result<seq<(Value, Value)>, DehydrateError>)
      ensures r.Ok? ==> |r.value| == |specs|
      ensures r.Ok? ==> forall i :: 0 <= i < |specs| ==> DehydrateSpec(env, obj, specs[i]) == Ok(r.value[i])
      ensures r.Err? ==> exists i :: 0 <= i < |specs| && DehydrateSpec(env, obj, specs[i]) == Err(r.error)
                                     && forall j :: 0 <= j < i ==> DehydrateSpec(env, obj, specs[j]).Ok?
    {
      var pairs: seq<(Value, Value)> := [];
      var i := 0;
      while i < |specs|
        invariant 0 <= i <= |specs|
        invariant |pairs| == i
        invariant forall k :: 0 <= k < i ==> DehydrateSpec(env, obj, specs[k]) == Ok(pairs[k])
      {
        var pair := DehydrateSpec(env, obj, specs[i]);
        if pair.Err? {
          return Err(pair.error);
        }
        pairs := pairs + [pair.value];
        i := i + 1;
      }
      return Ok(pairs);
    }
  }
}
