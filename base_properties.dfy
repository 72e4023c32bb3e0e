/** What the Dehydrator promises about wrapping specifications, choosing
    handlers and the getter names its fields look for. */
module BaseProperties {
  import opened PyValues
  import opened Base
  import Fields

  /** Wrapping a plain specification loses nothing: the `S` it produces
      holds one or two strings, and they give back the specification. */
  lemma WrapRecoversSpec(typeOf: seq<string> -> string, v: Value)
    requires WrapSpec(typeOf, Raw(v)).Ok?
    ensures var s := WrapSpec(typeOf, Raw(v)).value;
            (|s.args| == 1 || |s.args| == 2) && Unwrap(s) == v
  {
    if !v.Str? {
      assert v.items == [v.items[0], v.items[1]];
    }
  }

  /** Wrapping is idempotent: wrapping the result again returns it as it is. */
  lemma WrapIsIdempotent(typeOf: seq<string> -> string, spec: Spec)
    requires WrapSpec(typeOf, spec).Ok?
    ensures WrapSpec(typeOf, Wrapped(WrapSpec(typeOf, spec).value)) == WrapSpec(typeOf, spec)
  {
  }

  /** A string is always one name, whatever its length. */
  lemma WrapName(typeOf: seq<string> -> string, name: string)
    ensures WrapSpec(typeOf, Raw(Str(name))) == Ok(S([name], typeOf([name])))
  {
  }

  /** A tuple of two strings is a (name, substitution) pair; a list of two
      strings is not a format the dehydrator knows. */
  lemma WrapNamePair(typeOf: seq<string> -> string, name: string, sub: string)
    ensures WrapSpec(typeOf, Raw(Seq([Str(name), Str(sub)], true))) == Ok(S([name, sub], typeOf([name, sub])))
    ensures WrapSpec(typeOf, Raw(Seq([Str(name), Str(sub)], false))) ==
              Err(UnknownSpecFormat(Seq([Str(name), Str(sub)], false)))
  {
  }

  /** An unknown format is reported before any handler is looked up, so it
      does not depend on the registry. */
  lemma UnknownFormatPrecedesHandlerLookup(env: Collaborators, obj: Value, v: Value)
    requires !v.Str? && !IsTwoStrTuple(v)
    ensures DehydrateSpec(env, obj, Raw(v)) == Err(UnknownSpecFormat(v))
  {
  }

  /** A specification in a known format fails exactly when its type has no
      registered handler, and the error names that type. */
  lemma HandlerNotFoundExactlyWhenUnregistered(env: Collaborators, obj: Value, spec: Spec)
    requires WrapSpec(env.typeOf, spec).Ok?
    ensures var t := WrapSpec(env.typeOf, spec).value.specType;
            && (DehydrateSpec(env, obj, spec).Err? <==> t !in env.registry)
            && (t !in env.registry ==> DehydrateSpec(env, obj, spec) == Err(HandlerNotFound(t)))
  {
  }

  /** The fields of a dehydrator look for its getters under `get_` followed
      by the target name, before looking at the object. */
  lemma FieldsLookForPrefixedGetters(d: Base.Dehydrator, obj: Value, name: string)
    ensures Fields.ResolveTarget(d.View(), obj, Str(name)).Ok?
    ensures Fields.ResolveTarget(d.View(), obj, Str(name)).value.DehydratorGetter? <==> "get_" + name in d.members
    ensures "get_" + name in d.members ==>
              Fields.ResolveTarget(d.View(), obj, Str(name)) == Ok(Fields.DehydratorGetter("get_" + name))
  {
  }
}
