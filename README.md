# dehydrate: spec dispatch and field resolution, modelled in Dafny

A dehydrator turns an object into a plain mapping. It reads a declarative
list of specifications: a name, a `(name, substitution)` pair, a target
description mapping (`target`, optional `iterable`, `dehydrator` and
`fields`), or a `(mapping, substitution)` pair. This project models how a
specification is classified, parsed into a field, keyed, and resolved to
a getter. It also models how the `Dehydrator` turns its list of
specifications into `(key, value)` pairs.

Files:

- `py_values.dfy` (module `PyValues`): the Python values the core inspects.
  This covers strings, lists and tuples, ordered mappings, class objects and
  objects known by their members. It also covers the exceptions and the
  built-ins the core uses: `len`, iteration, `in`, subscription, `dict.get`
  and truthiness.
- `fields.dfy` (module `Fields`): `dehydrate/fields.py`. It has the shape
  predicates, relevance, `parse_spec` with its validation hooks, the field
  properties, `build_key`, `resolve_target` and both `build_value`s. All of
  them are functions over an immutable `Field` record, because a field's
  attributes are written once in `Field.__init__`.
- `field_properties.dfy` (module `FieldProperties`): lemmas about `Fields`.
- `base.dfy` (module `Base`): `dehydrate/base.py`. Wrapping, handler
  selection and per-spec dehydration are functions. `Dehydrator` is a class
  whose `specs` field is set by its constructor. Its `Dehydrate` method is
  the loop that yields one pair per specification.
- `base_properties.dfy` (module `BaseProperties`): lemmas about `Base`.

Quirks of the code that the model keeps rather than fixes:

- `is_pair` looks only at length. A two-character name such as `"id"` parses
  as target `"i"` with substitution `"d"`. A mapping with two keys is
  unpacked into its two keys, in the order iterating the mapping visits
  them.
- A mapping with two string keys is claimed by both field types.
- A ComplexField description with exactly two entries, such as
  `{"target": ..., "fields": ...}`, is unpacked into its two keys. When
  iteration visits `target` first, it parses with target_info `"target"` and
  substitution `"fields"`, because `'target' in "target"` is a substring
  test, and reading its target then fails. When `fields` comes first,
  parsing fails with the "required" error. A Python 2 `dict` iterates in an
  order set by the keys' hashes, so which of the two happens depends on
  that order, not on how the description was written.
- A non-iterable ComplexField dehydrates `obj`, not the value it fetched.
- `resolve_target` returns `None` when nothing matches. Calling that
  result is what fails. No dedicated resolution error is raised, and the
  model follows the code on this. Also, the dehydrator's getter is used
  without checking that it is callable.

## Model

| member | source | states |
|---|---|---|
| `Fields.IsString` | dehydrate/fields.py:21 | a string is iterable and is not a mapping |
| `Fields.IsDict` | dehydrate/fields.py:22 | a mapping is iterable, and iterating it visits its keys |
| `Fields.IsIterable` | dehydrate/fields.py:23 | the iterables are exactly the strings, mappings, lists and tuples |
| `Fields.IsPair` | dehydrate/fields.py:24 | a pair unpacks into exactly two elements; every two-character string and every two-entry mapping is a pair |
| `Fields.SimpleIsRelevant` | dehydrate/fields.py:87-93 | every string is claimed; only iterables are claimed, and any claimed non-string has length two |
| `Fields.ComplexIsRelevant` | dehydrate/fields.py:112-120 | every mapping is claimed; only iterables are claimed, and never a string |
| `Fields.ValidateTargetInfo` | dehydrate/fields.py:122-131 | the base hook accepts everything; ComplexField passes iff `'target' in target_info` is true, fails with the "'target' field is required ... ComplexField" SpecParsingError when it is false, and lets the TypeError that `in` raises on a non-container escape |
| `Fields.ParseSpec` | dehydrate/fields.py:42-58 | SimpleField parsing never fails; every failure is a SpecParsingError carrying the validation exception's message; a success is a target_info that the hook accepted |
| `Fields.NewField` | dehydrate/fields.py:29-31 | a field keeps its kind, its owning dehydrator and exactly the parsed (target_info, substitution), and fails exactly when parsing fails |
| `Fields.Target` | dehydrate/fields.py:144-146 | SimpleField's target is its target_info; ComplexField's target exists iff target_info is a mapping with a `target` key, and is then that entry |
| `Fields.IsIterableFlag` | dehydrate/fields.py:148-150 | fails unless target_info is a mapping; is the `iterable` entry when there is one, and `False` otherwise |
| `Fields.DehydratorCls` | dehydrate/fields.py:152-155 | fails unless target_info is a mapping; is the `dehydrator` entry when there is one, and the `Dehydrator` class otherwise |
| `Fields.NestedFields` | dehydrate/fields.py:157-159 | fails unless target_info is a mapping; is the `fields` entry when there is one, and `None` otherwise |
| `Fields.BuildKey` | dehydrate/fields.py:67-68 | the key is the substitution when it is truthy, otherwise the field's target |
| `Fields.ResolveTarget` | dehydrate/fields.py:70-81 | fails only for a non-string name; yields the dehydrator getter iff prefix+name is a dehydrator member; yields nothing iff neither the dehydrator getter nor the object member exists |
| `Fields.FetchTarget` | dehydrate/fields.py:99-101 | calling the resolved getter succeeds iff resolution found something; the value is the getter's result on `obj` |
| `Fields.SimpleBuildValue` | dehydrate/fields.py:99-101 | succeeds iff the target is a string that resolves to a getter; the value is that getter called on `obj` |
| `Fields.ComplexBuildValue` | dehydrate/fields.py:133-141 | the target is always fetched first, and its failure is the field's failure even when the value is not used |
| `FieldProperties.SimpleRelevantShapes` | dehydrate/fields.py:87-93 | SimpleField claims exactly the strings, the two-string lists and tuples, and the mappings with two string keys |
| `FieldProperties.ComplexRelevantShapes` | dehydrate/fields.py:112-120 | ComplexField claims exactly the mappings and the (mapping, string) lists and tuples, so never a plain string |
| `FieldProperties.RelevanceOverlap` | dehydrate/fields.py:87-120 | both field types claim a spec iff it is a mapping with exactly two string keys |
| `FieldProperties.NonContainersUnclaimed` | dehydrate/fields.py:21-24 | a value that is not a string, list, tuple or mapping is claimed by neither field type |
| `FieldProperties.ParseSplitsSequencePair` | dehydrate/fields.py:47-48 | a two-element list or tuple parses as (first, second) |
| `FieldProperties.ParseSplitsTwoCharacterName` | dehydrate/fields.py:24 | a two-character name parses as its two one-character strings |
| `FieldProperties.ParseSplitsTwoKeyMapping` | dehydrate/fields.py:47-48 | a two-entry mapping parses as (first key, second key) |
| `FieldProperties.ParseKeepsNonPair` | dehydrate/fields.py:49-51 | a spec that is not a pair parses as (spec, None) |
| `FieldProperties.ComplexParseOfMapping` | dehydrate/fields.py:122-131 | a ComplexField mapping that is not a pair parses iff it has a `target` key, else fails with the "required" SpecParsingError |
| `FieldProperties.ComplexParseOfAliasedMapping` | dehydrate/fields.py:113-131 | a (mapping, alias) pair parses iff the mapping has a `target` key, with the alias as substitution |
| `FieldProperties.TargetRequiredMessageNamesKeyAndClass` | dehydrate/fields.py:124-131 | the missing-target message contains `'target'` and `ComplexField` |
| `FieldProperties.ComplexParseWrapsTypeError` | dehydrate/fields.py:53-56 | a TypeError raised by the validation's `in` test surfaces as a SpecParsingError with the same message |
| `FieldProperties.SimpleKeyOfNamePair` | dehydrate/fields.py:67-68 | `(name, sub)` is keyed by `sub`, or by `name` when `sub` is empty |
| `FieldProperties.SimpleKeyOfName` | dehydrate/fields.py:95-97 | a name of length other than two is its own target and key, with no substitution |
| `FieldProperties.SimpleKeyOfTwoCharacterName` | dehydrate/fields.py:24 | a two-character name is keyed by its second character |
| `FieldProperties.ComplexDescriptionDefaults` | dehydrate/fields.py:144-159 | a description holding only `target` is keyed by its target, is not iterable, nests with `Dehydrator` and has no fields |
| `FieldProperties.ComplexKeyOfAliasedDescription` | dehydrate/fields.py:67-68 | a (description, alias) pair is keyed by a non-empty alias |
| `FieldProperties.TwoEntryDescriptionLosesTarget` | dehydrate/fields.py:122-146 | a two-entry description iterated with `target` first parses as the pair of its keys, is keyed by its second key, and its target cannot be read |
| `FieldProperties.TwoEntryDescriptionFieldsFirstFails` | dehydrate/fields.py:42-58 | a `{fields, target}` description iterated with `fields` first fails to parse with the "required" error |
| `FieldProperties.DehydratorGetterWins` | dehydrate/fields.py:72-74 | a dehydrator getter is chosen whatever the object has |
| `FieldProperties.ObjectMemberNext` | dehydrate/fields.py:76-81 | without a dehydrator getter, a callable member is returned as-is and a plain member becomes a thunk built from its value |
| `FieldProperties.ResolutionSeesOnlyTheNamedMember` | dehydrate/fields.py:76-81 | resolution depends on the object only through its member of the target's name |
| `FieldProperties.UnresolvedTargetFails` | dehydrate/fields.py:99-101 | when nothing resolves, both build_values fail calling `None` |
| `FieldProperties.SimpleValueIsGetterResult` | dehydrate/fields.py:99-101 | SimpleField's value is the resolved getter's result, unchanged |
| `FieldProperties.ComplexIterableDehydratesEachElement` | dehydrate/fields.py:138-139 | with `iterable` set, the value is a list with one nested dehydration per element of the target, in order |
| `FieldProperties.ComplexIterableOverNonIterableFails` | dehydrate/fields.py:137-139 | with `iterable` set, a fetched target that is not iterable makes `map` raise a TypeError |
| `FieldProperties.ComplexSingleDehydratesObject` | dehydrate/fields.py:140-141 | without `iterable`, the value is the nested dehydration of `obj`, whatever the fetched target was |
| `Base.InitialSpecs` | dehydrate/base.py:14-17 | specs are the argument if non-empty, else the class-level specs if non-empty, else empty |
| `Base.WrapSpec` | dehydrate/base.py:29-37 | a string or a two-string tuple is wrapped, an `S` is kept, anything else is UnknownSpecFormat |
| `Base.SelectHandler` | dehydrate/base.py:39-44 | HandlerNotFound naming the type iff the spec's type is not registered, else a handler of the registered class for this spec |
| `Base.DehydrateSpec` | dehydrate/base.py:24-27 | succeeds iff wrapping succeeds and the type is registered; the pair is the handler's key and value |
| `Base.Dehydrator.constructor` | dehydrate/base.py:16-17 | the new dehydrator's specs follow the argument/class/empty fallback |
| `Base.Dehydrator.View` | dehydrate/base.py:12 | the fields of a dehydrator see the getter prefix `get_` and its members |
| `Base.Dehydrator.Dehydrate` | dehydrate/base.py:19-22 | on success, one pair per spec in spec order, each the spec's own pair; on failure, the error of the first spec that fails |
| `BaseProperties.WrapRecoversSpec` | dehydrate/base.py:30-33 | the wrapped `S` holds one or two strings that give back the plain spec |
| `BaseProperties.WrapIsIdempotent` | dehydrate/base.py:34-35 | wrapping a wrapped spec returns it unchanged |
| `BaseProperties.WrapName` | dehydrate/base.py:30-31 | any string, whatever its length, is wrapped as a single name |
| `BaseProperties.WrapNamePair` | dehydrate/base.py:32-37 | a two-string tuple is wrapped as a pair; a two-string list is an unknown format |
| `BaseProperties.UnknownFormatPrecedesHandlerLookup` | dehydrate/base.py:25-26 | an unknown format is reported whatever the registry holds |
| `BaseProperties.HandlerNotFoundExactlyWhenUnregistered` | dehydrate/base.py:39-42 | a wrappable spec fails iff its type is unregistered, with HandlerNotFound naming it |
| `BaseProperties.FieldsLookForPrefixedGetters` | dehydrate/fields.py:72-74 | a dehydrator's fields pick its getter `get_<name>` iff it has that member |

## Left out

- The field registry of `dehydrate/fields.py` (`Registry`, `register`, `find`) and the `handlers` registry are not part of this model. Relevance is modelled (`Fields.IsRelevant`), but choosing a field type from it is not. `Base` takes the handler registry as a map from spec type to handler class.
- Handlers are abstract. The `S` spec class, `is_two_str_tuple` and `wrap_in_dict` live in files that are not part of this model. `S` is a record of its arguments and its type, and `Collaborators.typeOf` stands for how `S` computes the type. A handler's `build_key` and `build_value` are given functions. `is_two_str_tuple` is taken to mean a tuple of exactly two strings. The handler does not carry its dehydrator.
- `Base.Dehydrator.Dehydrate` returns the ordered pairs instead of the mapping that `wrap_in_dict` builds. It runs eagerly, not as a generator. Duplicate keys are not resolved.
- Calling getters and building nested dehydrators are given functions (`call`, `nested`). The attribute thunk is built from the attribute's value and called with an extra argument. `dehydrator_cls(fields=...)` does not match `Dehydrator.__init__(specs=...)`. Neither failure is modelled.
- Python reflection is replaced by member maps. Only `Object` values have members. Attributes of strings, numbers and other built-ins are not seen by `hasattr`.
- Every iterable in the model has a length. Iterables without `len` would make `is_pair` raise, and they are not modelled.
- Handlers, `S`, `call` and `nested` are total functions, so exceptions they would raise are not modelled.
- The messages of Python's own TypeError and AttributeError are paraphrased, not reproduced verbatim.
- Python-2 specifics: `basestring` is `Str`, and `e.message` is the `message` field.
- A mapping's `entries` are one fixed iteration order. The model does not say which order a Python 2 `dict` picks. A sequence of entries may also repeat a key, which a real mapping cannot do, so lemmas about mappings also cover such sequences.
- Python equality across types (for instance `1 == True`) is not modelled. `in` and key lookup use structural equality.
- `Base.Dehydrator.View`: the getter prefix is always `get_`. A subclass overriding `GETTER_PREFIX` is not modelled, though `Fields.Owner` accepts any prefix.
- `Base.InitialSpecs`: the `specs` argument is `None` or a list. Other truthy values are not modelled.
- The global, import-time registration side effects are not modelled, and neither is the unbounded recursion through nested specifications.
