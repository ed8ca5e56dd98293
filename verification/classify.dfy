/**
 The type-kind classifiers of tosholi/validate.py. Each one asks
 `typing.get_origin` for the type's origin and tests it with `issubclass`;
 when the origin is not a class (`None` for a bare class, the `Union` special
 form) `issubclass` raises `TypeError` and the classifier falls back to a
 membership test against the bare spellings.
 */
module Classify {
  import opened Wrappers
  import opened Types

  /** What `typing.get_origin` returns. */
  datatype Origin =
    | NoOrigin                  // None
    | UnionForm                 // typing.Union, a special form and not a class
    | UnionTypeClass            // types.UnionType, the class of `X | Y`
    | BuiltinClass(cls: Builtin)

  function GetOrigin(t: Ty): (o: Origin)
    ensures o == UnionForm <==> t.Union? && t.syntax == TypingUnion
    ensures o == UnionTypeClass <==> t.Union? && t.syntax == PipeUnion
    ensures o.BuiltinClass? <==> t.Container? && !t.spelling.BareClass?
    ensures o.BuiltinClass? ==> o.cls == t.kind
  {
    match t
    case Leaf(_) => NoOrigin
    case Record(_, _) => NoOrigin
    case Union(TypingUnion, _) => UnionForm
    case Union(PipeUnion, _) => UnionTypeClass
    case Container(kind, spelling) => if spelling.BareClass? then NoOrigin else BuiltinClass(kind)
  }

  /** `typing.get_args`: union arms or subscript arguments, otherwise empty. */
  function GetArgs(t: Ty): (args: seq<Ty>)
    ensures t.Union? ==> args == t.arms
    ensures t.Leaf? || t.Record? ==> args == []
  {
    match t
    case Union(_, arms) => arms
    case Container(_, Subscripted(args)) => args
    case _ => []
  }

  /** Python's subclass relation between the built-in containers. */
  predicate Extends(c: Builtin, base: Builtin) {
    c == base || (c == DefaultDict && base == Dict)
  }

  /**
   `issubclass(origin, bases)`: Failure models the `TypeError` raised when
   the origin is not a class.
   */
  function IsSubclass(o: Origin, bases: set<Builtin>): (r: Result<bool, string>)
    ensures r.Failure? <==> o == NoOrigin || o == UnionForm
    ensures r.Success? && r.value ==> o.BuiltinClass?
  {
    match o
    case BuiltinClass(c) => Success(exists b :: b in bases && Extends(c, b))
    case UnionTypeClass => Success(false)
    case _ => Failure("issubclass() arg 1 must be a class")
  }

  /** `isinstance(cls, DataClassProtocol)`: the type is a data class. */
  predicate IsRecord(t: Ty) {
    t.Record?
  }

  /** `is_dict`: `dict` and `defaultdict` in every spelling. */
  predicate IsDict(t: Ty)
    ensures IsDict(t) <==> t.Container? && t.kind in {Dict, DefaultDict}
  {
    match IsSubclass(GetOrigin(t), {Dict, DefaultDict})
    case Success(b) => b
    case Failure(_) =>
      t in [Container(Dict, BareClass), Container(DefaultDict, BareClass),
            Container(Dict, BareAlias), Container(DefaultDict, BareAlias)]
  }

  /** `is_list`: `list` in every spelling. */
  predicate IsList(t: Ty)
    ensures IsList(t) <==> t.Container? && t.kind == List
  {
    match IsSubclass(GetOrigin(t), {List})
    case Success(b) => b
    case Failure(_) => t in [Container(List, BareClass), Container(List, BareAlias)]
  }

  /**
   `is_optional`: a union, in either syntax, one of whose arms is `NoneType`
   (Python 3.10 or later, where the `X | Y` form exists).
   */
  predicate IsOptional(t: Ty)
    ensures IsOptional(t) <==> t.Union? && NoneTy in t.arms
  {
    var origin := GetOrigin(t);
    if origin == UnionForm then NoneTy in GetArgs(t)
    else if origin == UnionTypeClass then NoneTy in GetArgs(t)
    else false
  }

  /** `is_set`: `set` and `frozenset` in every spelling. */
  predicate IsSet(t: Ty)
    ensures IsSet(t) <==> t.Container? && t.kind in {Set, FrozenSet}
  {
    match IsSubclass(GetOrigin(t), {Set, FrozenSet})
    case Success(b) => b
    case Failure(_) =>
      t in [Container(Set, BareClass), Container(FrozenSet, BareClass),
            Container(Set, BareAlias), Container(FrozenSet, BareAlias)]
  }

  /** `is_tuple`: `tuple` in every spelling. */
  predicate IsTuple(t: Ty)
    ensures IsTuple(t) <==> t.Container? && t.kind == Tuple
  {
    match IsSubclass(GetOrigin(t), {Tuple})
    case Success(b) => b
    case Failure(_) => t in [Container(Tuple, BareClass), Container(Tuple, BareAlias)]
  }

  /** `is_union`: a union in either syntax, optional or not. */
  predicate IsUnion(t: Ty)
    ensures IsUnion(t) <==> t.Union?
  {
    var origin := GetOrigin(t);
    if origin == UnionForm then true
    else if origin == UnionTypeClass then true
    else false
  }

  /** Every optional type is also a union. */
  lemma OptionalIsUnion(t: Ty)
    ensures IsOptional(t) ==> IsUnion(t)
  {
  }

  /**
   At most one container classifier holds, none holds for a union, and a type
   that is not a container, union or record passes none of them.
   */
  lemma ClassifiersDisjoint(t: Ty)
    ensures IsList(t) ==> !IsSet(t) && !IsTuple(t) && !IsDict(t)
    ensures IsSet(t) ==> !IsTuple(t) && !IsDict(t)
    ensures IsTuple(t) ==> !IsDict(t)
    ensures IsUnion(t) ==> !IsList(t) && !IsSet(t) && !IsTuple(t) && !IsDict(t) && !IsRecord(t)
    ensures t.Leaf? ==> !IsList(t) && !IsSet(t) && !IsTuple(t) && !IsDict(t) && !IsUnion(t) && !IsRecord(t)
  {
  }
}
