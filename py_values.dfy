/** The part of Python's data model that the dehydrator inspects: the shapes
    a specification can take, the objects it reads members from, the
    exceptions it raises, and the built-in operations (`len`, iteration,
    `in`, indexing, `dict.get`, truthiness) applied to them. */
module PyValues {

  datatype Option<+T> = None | Some(value: T)

  /** A value or the exception a Python expression raised instead. */
  datatype Result<+T, +E> = Ok(value: T) | Err(error: E) {
    predicate IsFailure() { Err? }

    function PropagateFailure<U>(): Result<U, E>
      requires Err?
    {
      Err(error)
    }

    function Extract(): T
      requires Ok?
    {
      value
    }
  }

  /** Success of a hook that returns nothing, or the exception it raised. */
  datatype Outcome<+E> = Pass | Fail(error: E)

  /** A Python value. `Seq` is a list or (when `isTuple`) a tuple; `Class` is
      a class object named by its `__name__`; `Object` is any other instance,
      known by its members. `Dict` is a mapping whose entries are listed in
      the order iterating it visits them. For a Python 2 `dict` that order
      depends on the keys' hashes, not on how the mapping was written, so
      `entries` fixes one such order and every statement about a "first"
      key means first in iteration order. A real mapping never repeats a
      key (see `DistinctKeys`); `entries` does not enforce this, so the
      statements about mappings also cover sequences that repeat keys. */
  datatype Value =
    | NoneV
    | BoolV(b: bool)
    | IntV(i: int)
    | Str(s: string)
    | Seq(items: seq<Value>, isTuple: bool)
    | Dict(entries: seq<(Value, Value)>)
    | Class(name: string)
    | Object(members: map<string, Member>)

  /** A member of an object: whether `callable()` holds of it, and its value. */
  datatype Member = Member(callable: bool, value: Value)

  /** The exceptions the core raises or lets through, with their `message`. */
  datatype Exc =
    | SpecParsingError(message: string)
    | TypeError(message: string)
    | KeyError(message: string)
    | AttributeError(message: string)

  /** Python's `bool(v)`: empty containers, zero, `False` and `None` are false. */
  predicate Truthy(v: Value)
  {
    match v
    case NoneV => false
    case BoolV(b) => b
    case IntV(i) => i != 0
    case Str(s) => s != ""
    case Seq(items, _) => items != []
    case Dict(entries) => entries != []
    case Class(_) => true
    case Object(_) => true
  }

  /** `isinstance(v, Iterable)` for the values modelled here. */
  predicate Iterable(v: Value)
  {
    v.Str? || v.Seq? || v.Dict?
  }

  /** `len(v)` of an iterable value. */
  function Len(v: Value): nat
    requires Iterable(v)
  {
    match v
    case Str(s) => |s|
    case Seq(items, _) => |items|
    case Dict(entries) => |entries|
  }

  /** The keys of a mapping, in iteration order. */
  function Keys(entries: seq<(Value, Value)>): (ks: seq<Value>)
    ensures |ks| == |entries|
    ensures forall i :: 0 <= i < |entries| ==> ks[i] == entries[i].0
  {
    if entries == [] then [] else [entries[0].0] + Keys(entries[1..])
  }

  /** What `for x in v` visits: the one-character strings of a string, the
      items of a list or tuple, the keys of a mapping. */
  function Elements(v: Value): (es: seq<Value>)
    requires Iterable(v)
    ensures |es| == Len(v)
  {
    match v
    case Str(s) => seq(|s|, i requires 0 <= i < |s| => Str([s[i]]))
    case Seq(items, _) => items
    case Dict(entries) => Keys(entries)
  }

  /** The value stored under `key` in a mapping (the first entry, should the
      sequence repeat a key, which a real mapping never does). */
  function Lookup(entries: seq<(Value, Value)>, key: Value): (r: Option<Value>)
    ensures r.None? <==> key !in Keys(entries)
    ensures r.Some? ==> exists i :: 0 <= i < |entries| && entries[i] == (key, r.value)
  {
    if entries == [] then None
    else if entries[0].0 == key then Some(entries[0].1)
    else Lookup(entries[1..], key)
  }

  /** The entries of a real mapping: no key occurs twice. */
  predicate DistinctKeys(entries: seq<(Value, Value)>)
  {
    forall i, j :: 0 <= i < j < |entries| ==> entries[i].0 != entries[j].0
  }

  /** In a real mapping, looking up a key finds the value stored with it. */
  lemma {:induction false} LookupOfDistinctKeys(entries: seq<(Value, Value)>, i: nat)
    requires DistinctKeys(entries) && i < |entries|
    ensures Lookup(entries, entries[i].0) == Some(entries[i].1)
  {
    if i > 0 {
      assert entries[0].0 != entries[i].0;
      assert DistinctKeys(entries[1..]) by {
        forall j, k | 0 <= j < k < |entries[1..]|
          ensures entries[1..][j].0 != entries[1..][k].0
        {
          assert entries[1..][j] == entries[j + 1] && entries[1..][k] == entries[k + 1];
        }
      }
      LookupOfDistinctKeys(entries[1..], i - 1);
    }
  }

  /** `t` occurs in `s` starting at position `i`. */
  predicate OccursAt(t: string, s: string, i: int)
  {
    0 <= i <= |s| - |t| && s[i..i + |t|] == t
  }

  /** `t` occurs in `s` as a contiguous substring. */
  predicate IsSubstring(t: string, s: string)
  {
    exists i :: 0 <= i <= |s| - |t| && OccursAt(t, s, i)
  }

  /** Python's `name in container` for a string `name`: a substring test on a
      string, membership on a list or tuple, key membership on a mapping, and
      a TypeError on anything that is not a container. */
  function Contains(container: Value, name: string): (r: Result<bool, Exc>)
    ensures r.Err? <==> !Iterable(container)
    ensures container.Dict? ==> r == Ok(Str(name) in Keys(container.entries))
    ensures container.Str? ==> r == Ok(IsSubstring(name, container.s))
  {
    match container
    case Str(s) => Ok(IsSubstring(name, s))
    case Seq(items, _) => Ok(Str(name) in items)
    case Dict(entries) => Ok(Str(name) in Keys(entries))
    case _ => Err(TypeError("argument of type is not iterable"))
  }

  /** Python's `container[name]` for a string `name`: a key lookup on a
      mapping, a TypeError on a string, list or tuple (their indices must be
      integers) and on values that are not subscriptable. */
  function Subscript(container: Value, name: string): (r: Result<Value, Exc>)
    ensures r.Ok? <==> container.Dict? && Str(name) in Keys(container.entries)
    ensures r.Ok? ==> Lookup(container.entries, Str(name)) == Some(r.value)
  {
    match container
    case Dict(entries) =>
      (match Lookup(entries, Str(name))
       case Some(v) => Ok(v)
       case None => Err(KeyError(name)))
    case _ => Err(TypeError("indices must be integers"))
  }

  /** Python's `container.get(name, default)`: only mappings have `get`. */
  function GetOr(container: Value, name: string, default: Value): (r: Result<Value, Exc>)
    ensures r.Err? <==> !container.Dict?
    ensures container.Dict? && Str(name) !in Keys(container.entries) ==> r == Ok(default)
    ensures container.Dict? && Str(name) in Keys(container.entries) ==>
              Some(r.value) == Lookup(container.entries, Str(name))
  {
    match container
    case Dict(entries) =>
      (match Lookup(entries, Str(name))
       case Some(v) => Ok(v)
       case None => Ok(default))
    case _ => Err(AttributeError("object has no attribute 'get'"))
  }
}
