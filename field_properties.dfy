/** What the field types promise: which shapes each one claims, how a
    specification is split and validated, which key a field contributes,
    the order in which getters are resolved, and what a ComplexField builds. */
module FieldProperties {
  import opened PyValues
  import opened Fields

  // Relevance.

  /** SimpleField claims exactly the strings, the lists and tuples of two
      strings, and the mappings with two keys that are both strings. */
  lemma SimpleRelevantShapes(spec: Value)
    ensures SimpleIsRelevant(spec) <==>
              || spec.Str?
              || (spec.Seq? && |spec.items| == 2 && spec.items[0].Str? && spec.items[1].Str?)
              || (spec.Dict? && |spec.entries| == 2 && spec.entries[0].0.Str? && spec.entries[1].0.Str?)
  {
    if spec.Dict? && |spec.entries| == 2 {
      assert Elements(spec) == [spec.entries[0].0, spec.entries[1].0];
    }
  }

  /** ComplexField claims exactly the mappings and the lists and tuples of a
      mapping followed by a string; in particular never a plain string. */
  lemma ComplexRelevantShapes(spec: Value)
    ensures ComplexIsRelevant(spec) <==>
              || spec.Dict?
              || (spec.Seq? && |spec.items| == 2 && spec.items[0].Dict? && spec.items[1].Str?)
  {
    if spec.Str? && |spec.s| == 2 {
      assert Elements(spec)[0] == Str([spec.s[0]]);
    }
  }

  /** The two field types both claim a specification exactly when it is a
      mapping with two string keys; that is the one shape the relevance
      predicates leave ambiguous. */
  lemma RelevanceOverlap(spec: Value)
    ensures SimpleIsRelevant(spec) && ComplexIsRelevant(spec) <==>
              spec.Dict? && |spec.entries| == 2 && spec.entries[0].0.Str? && spec.entries[1].0.Str?
  {
    SimpleRelevantShapes(spec);
    ComplexRelevantShapes(spec);
  }

  /** A value that is not a string, list, tuple or mapping is claimed by
      neither field type. */
  lemma NonContainersUnclaimed(spec: Value)
    requires !Iterable(spec)
    ensures !IsRelevant(SimpleField, spec) && !IsRelevant(ComplexField, spec)
  {
  }

  // Parsing.

  /** A two-element list or tuple is split into its two elements. */
  lemma ParseSplitsSequencePair(kind: FieldKind, a: Value, b: Value, isTuple: bool)
    ensures ParseSpec(kind, Seq([a, b], isTuple)).Ok? ==> ParseSpec(kind, Seq([a, b], isTuple)).value == (a, b)
    ensures kind == SimpleField ==> ParseSpec(kind, Seq([a, b], isTuple)) == Ok((a, b))
  {
  }

  /** A two-character name is split into two one-character strings, the
      second becoming the substitution. */
  lemma ParseSplitsTwoCharacterName(c: char, d: char)
    ensures ParseSpec(SimpleField, Str([c, d])) == Ok((Str([c]), Str([d])))
  {
  }

  /** A mapping with two entries is split into its two keys, in order. */
  lemma ParseSplitsTwoKeyMapping(kind: FieldKind, k1: Value, v1: Value, k2: Value, v2: Value)
    ensures ParseSpec(kind, Dict([(k1, v1), (k2, v2)])).Ok? ==>
              ParseSpec(kind, Dict([(k1, v1), (k2, v2)])).value == (k1, k2)
  {
    assert Elements(Dict([(k1, v1), (k2, v2)])) == [k1, k2];
  }

  /** Anything that is not a pair is the whole target description, with no
      substitution. */
  lemma ParseKeepsNonPair(kind: FieldKind, spec: Value)
    requires !IsPair(spec)
    ensures ParseSpec(kind, spec).Ok? ==> ParseSpec(kind, spec).value == (spec, NoneV)
    ensures kind == SimpleField ==> ParseSpec(kind, spec) == Ok((spec, NoneV))
  {
  }

  /** A ComplexField mapping that is not a pair parses exactly when it has a
      `target` key, and otherwise fails with the "required" message. */
  lemma ComplexParseOfMapping(entries: seq<(Value, Value)>)
    requires |entries| != 2
    ensures ParseSpec(ComplexField, Dict(entries)) ==
              if Str(TARGET_FIELD_NAME) in Keys(entries) then Ok((Dict(entries), NoneV))
              else Err(SpecParsingError(TargetRequiredMessage("ComplexField")))
  {
  }

  /** A (mapping, name) pair parses exactly when the mapping has a `target`
      key, and the name becomes the substitution. */
  lemma ComplexParseOfAliasedMapping(entries: seq<(Value, Value)>, alias: string, isTuple: bool)
    ensures ParseSpec(ComplexField, Seq([Dict(entries), Str(alias)], isTuple)) ==
              if Str(TARGET_FIELD_NAME) in Keys(entries) then Ok((Dict(entries), Str(alias)))
              else Err(SpecParsingError(TargetRequiredMessage("ComplexField")))
  {
  }

  /** The "required" message names the missing key and the field class. */
  lemma TargetRequiredMessageNamesKeyAndClass()
    ensures IsSubstring("'target'", TargetRequiredMessage("ComplexField"))
    ensures IsSubstring("ComplexField", TargetRequiredMessage("ComplexField"))
  {
    var head := "'" + TARGET_FIELD_NAME + "'";
    var tail := " field is required in specification of ";
    var m := TargetRequiredMessage("ComplexField");
    assert m == head + tail + "ComplexField";
    assert m[..|head|] == head;
    assert OccursAt("'target'", m, 0);
    assert m[|head + tail|..] == "ComplexField";
    assert OccursAt("ComplexField", m, |head + tail|);
  }

  /** A validation hook that raises something other than SpecParsingError
      still makes parsing fail with SpecParsingError, carrying the original
      message: a pair whose first element cannot hold `'target'`. */
  lemma ComplexParseWrapsTypeError(spec: Value)
    requires IsPair(spec) && !Iterable(Elements(spec)[0])
    ensures ParseSpec(ComplexField, spec) == Err(SpecParsingError("argument of type is not iterable"))
  {
  }

  // Output keys.

  /** A (name, substitution) pair gives the substitution as key, or the name
      when the substitution is empty. */
  lemma SimpleKeyOfNamePair(owner: Owner, name: string, sub: string, isTuple: bool)
    ensures NewField(SimpleField, owner, Seq([Str(name), Str(sub)], isTuple)).Ok?
    ensures BuildKey(NewField(SimpleField, owner, Seq([Str(name), Str(sub)], isTuple)).value) ==
              Ok(Str(if sub != "" then sub else name))
  {
  }

  /** A name that is not two characters long is its own key. */
  lemma SimpleKeyOfName(owner: Owner, name: string)
    requires |name| != 2
    ensures NewField(SimpleField, owner, Str(name)) == Ok(Field(SimpleField, owner, Str(name), NoneV))
    ensures BuildKey(NewField(SimpleField, owner, Str(name)).value) == Ok(Str(name))
  {
  }

  /** A two-character name is read as (first character, second character):
      its key is its second character. */
  lemma SimpleKeyOfTwoCharacterName(owner: Owner, c: char, d: char)
    ensures NewField(SimpleField, owner, Str([c, d])) == Ok(Field(SimpleField, owner, Str([c]), Str([d])))
    ensures BuildKey(NewField(SimpleField, owner, Str([c, d])).value) == Ok(Str([d]))
  {
  }

  /** A target description with only a `target` entry: the key is the
      target, and every other property takes its default. */
  lemma ComplexDescriptionDefaults(owner: Owner, target: Value)
    ensures NewField(ComplexField, owner, Dict([(Str(TARGET_FIELD_NAME), target)])).Ok?
    ensures var f := NewField(ComplexField, owner, Dict([(Str(TARGET_FIELD_NAME), target)])).value;
            && Target(f) == Ok(target)
            && BuildKey(f) == Ok(target)
            && IsIterableFlag(f) == Ok(BoolV(false))
            && DehydratorCls(f) == Ok(Class(DEFAULT_DEHYDRATOR_CLASS))
            && NestedFields(f) == Ok(NoneV)
  {
    var es := [(Str(TARGET_FIELD_NAME), target)];
    assert Keys(es) == [Str(TARGET_FIELD_NAME)];
  }

  /** A (description, alias) pair keys the result by the alias when it is
      not empty. */
  lemma ComplexKeyOfAliasedDescription(owner: Owner, entries: seq<(Value, Value)>, alias: string, isTuple: bool)
    requires Str(TARGET_FIELD_NAME) in Keys(entries) && alias != ""
    ensures NewField(ComplexField, owner, Seq([Dict(entries), Str(alias)], isTuple)).Ok?
    ensures BuildKey(NewField(ComplexField, owner, Seq([Dict(entries), Str(alias)], isTuple)).value) == Ok(Str(alias))
  {
  }

  /** A description with exactly the two entries `target` and another key,
      when iteration visits `target` first, is taken for a pair of keys:
      `'target' in "target"` passes as a substring test, the second key
      becomes the output key, and the target cannot be read because a string
      is indexed by a string. */
  lemma TwoEntryDescriptionLosesTarget(owner: Owner, target: Value, key: string, value: Value)
    requires key != ""
    ensures var spec := Dict([(Str(TARGET_FIELD_NAME), target), (Str(key), value)]);
            && NewField(ComplexField, owner, spec) == Ok(Field(ComplexField, owner, Str(TARGET_FIELD_NAME), Str(key)))
            && BuildKey(NewField(ComplexField, owner, spec).value) == Ok(Str(key))
            && Target(NewField(ComplexField, owner, spec).value).Err?
  {
    var spec := Dict([(Str(TARGET_FIELD_NAME), target), (Str(key), value)]);
    assert Elements(spec) == [Str(TARGET_FIELD_NAME), Str(key)];
    assert OccursAt(TARGET_FIELD_NAME, TARGET_FIELD_NAME, 0);
  }

  /** The same description, when iteration visits `fields` first: `'target'
      in "fields"` is false, so parsing fails with the "required" message. */
  lemma TwoEntryDescriptionFieldsFirstFails(owner: Owner, target: Value, fields: Value)
    ensures var spec := Dict([(Str(FIELDS_FIELD_NAME), fields), (Str(TARGET_FIELD_NAME), target)]);
            NewField(ComplexField, owner, spec) == Err(SpecParsingError(TargetRequiredMessage("ComplexField")))
  {
    var spec := Dict([(Str(FIELDS_FIELD_NAME), fields), (Str(TARGET_FIELD_NAME), target)]);
    assert Elements(spec) == [Str(FIELDS_FIELD_NAME), Str(TARGET_FIELD_NAME)];
    assert !OccursAt(TARGET_FIELD_NAME, FIELDS_FIELD_NAME, 0) by {
      assert FIELDS_FIELD_NAME[0] != TARGET_FIELD_NAME[0];
    }
  }

  // Getter resolution.

  /** A getter on the dehydrator wins whatever the object has. */
  lemma DehydratorGetterWins(owner: Owner, obj: Value, other: Value, name: string)
    requires owner.getterPrefix + name in owner.members
    ensures ResolveTarget(owner, obj, Str(name)) == Ok(DehydratorGetter(owner.getterPrefix + name))
    ensures ResolveTarget(owner, obj, Str(name)) == ResolveTarget(owner, other, Str(name))
  {
  }

  /** Without a dehydrator getter, the object's member is used: as it is when
      callable, as a deferred read of its value when not. */
  lemma ObjectMemberNext(owner: Owner, members: map<string, Member>, name: string)
    requires owner.getterPrefix + name !in owner.members && name in members
    ensures ResolveTarget(owner, Object(members), Str(name)) ==
              Ok(if members[name].callable then ObjectMethod(name) else AttrThunk(members[name].value))
  {
  }

  /** Resolution depends on the object only through its member of the
      target's name. */
  lemma ResolutionSeesOnlyTheNamedMember(owner: Owner, m1: map<string, Member>, m2: map<string, Member>, name: string)
    requires (name in m1) == (name in m2) && (name in m1 ==> m1[name] == m2[name])
    ensures ResolveTarget(owner, Object(m1), Str(name)) == ResolveTarget(owner, Object(m2), Str(name))
  {
  }

  // Building values.

  /** A field whose target resolves to nothing fails when it calls the
      result, for both field types. */
  lemma UnresolvedTargetFails(f: Field, obj: Value, call: (Getter, Value) -> Value,
                              nested: (Value, Value, Value) -> Value)
    requires Target(f).Ok? && ResolveTarget(f.dehydrator, obj, Target(f).value) == Ok(NoGetter)
    ensures f.kind == SimpleField ==> SimpleBuildValue(f, obj, call) == Err(TypeError("'NoneType' object is not callable"))
    ensures f.kind == ComplexField ==> ComplexBuildValue(f, obj, call, nested) == Err(TypeError("'NoneType' object is not callable"))
  {
  }

  /** SimpleField returns what the resolved getter returns. */
  lemma SimpleValueIsGetterResult(f: Field, obj: Value, call: (Getter, Value) -> Value, g: Getter)
    requires f.kind == SimpleField && ResolveTarget(f.dehydrator, obj, f.targetInfo) == Ok(g) && g != NoGetter
    ensures SimpleBuildValue(f, obj, call) == Ok(call(g, obj))
  {
  }

  /** With the iterable flag set, ComplexField dehydrates each element of
      the fetched target, one result per element, in element order. */
  lemma ComplexIterableDehydratesEachElement(f: Field, obj: Value, call: (Getter, Value) -> Value,
                                             nested: (Value, Value, Value) -> Value)
    requires f.kind == ComplexField
    requires FetchTarget(f, obj, call).Ok? && Truthy(IsIterableFlag(f).value)
    requires IsIterable(FetchTarget(f, obj, call).value)
    ensures var es := Elements(FetchTarget(f, obj, call).value);
            var r := ComplexBuildValue(f, obj, call, nested);
            && r.Ok? && r.value.Seq? && !r.value.isTuple && |r.value.items| == |es|
            && forall i :: 0 <= i < |es| ==>
                 r.value.items[i] == nested(DehydratorCls(f).value, NestedFields(f).value, es[i])
  {
  }

  /** With the iterable flag set, a fetched target that cannot be iterated
      makes `map` raise a TypeError. */
  lemma ComplexIterableOverNonIterableFails(f: Field, obj: Value, call: (Getter, Value) -> Value,
                                            nested: (Value, Value, Value) -> Value)
    requires f.kind == ComplexField
    requires FetchTarget(f, obj, call).Ok? && Truthy(IsIterableFlag(f).value)
    requires !IsIterable(FetchTarget(f, obj, call).value)
    ensures ComplexBuildValue(f, obj, call, nested) == Err(TypeError("argument 2 to map() must support iteration"))
  {
  }

  /** Without the iterable flag, ComplexField dehydrates `obj` itself: the
      fetched target value plays no part in the result. */
  lemma ComplexSingleDehydratesObject(f: Field, obj: Value, call: (Getter, Value) -> Value,
                                      other: (Getter, Value) -> Value, nested: (Value, Value, Value) -> Value)
    requires f.kind == ComplexField
    requires FetchTarget(f, obj, call).Ok? && !Truthy(IsIterableFlag(f).value)
    ensures ComplexBuildValue(f, obj, call, nested) == Ok(nested(DehydratorCls(f).value, NestedFields(f).value, obj))
    ensures ComplexBuildValue(f, obj, call, nested) == ComplexBuildValue(f, obj, other, nested)
  {
  }
}
