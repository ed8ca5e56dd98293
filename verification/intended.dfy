/**
 The walker and validator as evidently intended: an optional's tokens are
 those of every arm except `NoneType`, not of its first argument only. For
 well-formed types this validator accepts exactly the models whose declared
 leaf types are all TOML primitives.
 */
module Intended {
  import opened Wrappers
  import opened Types
  import opened Classify
  import Walker
  import Validator

  /** The primitive leaves TOML can hold. */
  const TomlPrims: set<Prim> := {Str, Int, Float, Bool, DateTime, Ellipsis}

  /**
   Types as Python's typing module builds them: a typing list or set alias
   takes one argument, a dict two; the same holds for every nested type.
   */
  predicate WellFormed(t: Ty)
    decreases t
  {
    match t
    case Leaf(_) => true
    case Record(_, fields) =>
      forall i :: 0 <= i < |fields| && fields[i].Some? ==> WellFormed(fields[i].value)
    case Union(_, arms) =>
      forall i :: 0 <= i < |arms| ==> WellFormed(arms[i])
    case Container(kind, spelling) =>
      spelling.Subscripted? ==>
        && (kind in {List, Set, FrozenSet} ==> |spelling.args| == 1)
        && (kind in {Dict, DefaultDict} ==> |spelling.args| == 2)
        && forall i :: 0 <= i < |spelling.args| ==> WellFormed(spelling.args[i])
  }

  /**
   The leaf types the declaration `t` names: through every annotated field,
   every union arm other than `NoneType`, every container argument. A bare
   container names none, and the `...` of a variadic tuple is named.
   */
  function Exposed(t: Ty): set<Prim>
    decreases t
  {
    match t
    case Leaf(p) => {p}
    case Record(_, fields) =>
      set i, p | 0 <= i < |fields| && fields[i].Some? && p in Exposed(fields[i].value) :: p
    case Union(_, arms) =>
      set i, p | 0 <= i < |arms| && arms[i] != NoneTy && p in Exposed(arms[i]) :: p
    case Container(_, spelling) =>
      if spelling.Subscripted?
      then set i, p | 0 <= i < |spelling.args| && p in Exposed(spelling.args[i]) :: p
      else {}
  }

  /** The corrected walker: the source's branch order, with the optional branch fixed. */
  function GetTypes(t: Ty): (r: set<Token>)
    ensures forall k :: k in r && k.LeafTok? ==> k.ty.Leaf?
    decreases t, 1, 0
  {
    if IsRecord(t) then
      {DataclassMarker} + FieldsTokens(t, |t.fields|)
    else if IsOptional(t) then
      {OptionalTok} + ArmsTokens(t.arms, true)
    else if IsUnion(t) then
      {UnionTok} + ArmsTokens(t.arms, false)
    else if IsList(t) then
      {ListTok} + (if t.spelling.Subscripted? && |t.spelling.args| > 0 then GetTypes(t.spelling.args[0]) else {})
    else if IsSet(t) then
      {SetTok} + (if t.spelling.Subscripted? && |t.spelling.args| > 0 then GetTypes(t.spelling.args[0]) else {})
    else if IsTuple(t) then
      {TupleTok} + (if t.spelling.Subscripted? then ArmsTokens(t.spelling.args, false) else {})
    else if IsDict(t) then
      {DictTok} +
      (if t.spelling.Subscripted? && |t.spelling.args| == 2
       then GetTypes(t.spelling.args[0]) + GetTypes(t.spelling.args[1])
       else {})
    else
      {LeafTok(t)}
  }

  /** The tokens of every argument, skipping `NoneType` arms when `skipNone` holds. */
  function ArmsTokens(args: seq<Ty>, skipNone: bool): (r: set<Token>)
    ensures forall k :: k in r && k.LeafTok? ==> k.ty.Leaf?
    decreases args, 0, 0
  {
    if |args| == 0 then {}
    else
      ArmsTokens(args[..|args| - 1], skipNone) +
      (if skipNone && args[|args| - 1] == NoneTy then {} else GetTypes(args[|args| - 1]))
  }

  /** The tokens of the first `n` fields of record `t`. */
  function FieldsTokens(t: Ty, n: nat): (r: set<Token>)
    requires t.Record? && n <= |t.fields|
    ensures forall k :: k in r && k.LeafTok? ==> k.ty.Leaf?
    decreases t, 0, n
  {
    if n == 0 then {}
    else
      FieldsTokens(t, n - 1) +
      (if t.fields[n - 1].Some? then GetTypes(t.fields[n - 1].value) else {})
  }

  /** `validate` over the corrected walker, failing with the same error as the original. */
  function Validate(model: Ty): (r: Result<(), Validator.UnsupportedTypeError>)
    requires model.Record?
    ensures r.Success? <==> GetTypes(model) <= Walker.TomlTypes
    ensures r.Failure? ==> r.error.model == model.name
    ensures r.Failure? ==> r.error.unsupported != {}
    ensures r.Failure? ==> forall k :: k in r.error.unsupported <==> k in GetTypes(model) && k !in Walker.TomlTypes
  {
    var remainder := GetTypes(model) - Walker.TomlTypes;
    if |remainder| > 0 then Failure(Validator.UnsupportedTypeError(model.name, remainder))
    else Success(())
  }

  /** Membership in `ArmsTokens`. */
  lemma {:induction false} ArmsTokensUnion(args: seq<Ty>, skipNone: bool, k: Token)
    ensures k in ArmsTokens(args, skipNone) <==>
      exists i :: 0 <= i < |args| && !(skipNone && args[i] == NoneTy) && k in GetTypes(args[i])
  {
    if |args| > 0 {
      var init := args[..|args| - 1];
      ArmsTokensUnion(init, skipNone, k);
      if k in ArmsTokens(init, skipNone) {
        var i :| 0 <= i < |init| && !(skipNone && init[i] == NoneTy) && k in GetTypes(init[i]);
        assert args[i] == init[i];
      }
      if exists i :: 0 <= i < |args| && !(skipNone && args[i] == NoneTy) && k in GetTypes(args[i]) {
        var i :| 0 <= i < |args| && !(skipNone && args[i] == NoneTy) && k in GetTypes(args[i]);
        if i < |args| - 1 {
          assert init[i] == args[i];
        }
      }
    }
  }

  /** Membership in `FieldsTokens`. */
  lemma {:induction false} FieldsTokensUnion(t: Ty, n: nat, k: Token)
    requires t.Record? && n <= |t.fields|
    ensures k in FieldsTokens(t, n) <==>
      exists i :: 0 <= i < n && t.fields[i].Some? && k in GetTypes(t.fields[i].value)
  {
    if n > 0 {
      FieldsTokensUnion(t, n - 1, k);
    }
  }

  /**
   For a well-formed type, the corrected walker surfaces a leaf exactly when
   the declaration names it.
   */
  lemma {:induction false} LeafTokensExposed(t: Ty, p: Prim)
    requires WellFormed(t)
    ensures LeafTok(Leaf(p)) in GetTypes(t) <==> p in Exposed(t)
    decreases t, 2
  {
    match t
    case Leaf(_) =>
    case Record(_, _) => RecordExposed(t, p);
    case Union(_, _) => UnionExposed(t, p);
    case Container(_, _) => ContainerExposed(t, p);
  }

  /** `LeafTokensExposed` for a record, from the same fact for its fields. */
  lemma {:induction false} RecordExposed(t: Ty, p: Prim)
    requires t.Record? && WellFormed(t)
    ensures LeafTok(Leaf(p)) in GetTypes(t) <==> p in Exposed(t)
    decreases t, 0
  {
    var fields := t.fields;
    FieldsTokensUnion(t, |fields|, LeafTok(Leaf(p)));
    forall i | 0 <= i < |fields| && fields[i].Some? {
      LeafTokensExposed(fields[i].value, p);
    }
    assert GetTypes(t) == {DataclassMarker} + FieldsTokens(t, |fields|);
  }

  /** `LeafTokensExposed` for a union, optional or not, from the same fact for its arms. */
  lemma {:induction false} UnionExposed(t: Ty, p: Prim)
    requires t.Union? && WellFormed(t)
    ensures LeafTok(Leaf(p)) in GetTypes(t) <==> p in Exposed(t)
    decreases t, 0
  {
    var arms := t.arms;
    var skip := IsOptional(t);
    ArmsTokensUnion(arms, skip, LeafTok(Leaf(p)));
    forall i | 0 <= i < |arms| {
      LeafTokensExposed(arms[i], p);
    }
    if skip {
      assert GetTypes(t) == {OptionalTok} + ArmsTokens(arms, true);
    } else {
      assert forall i :: 0 <= i < |arms| ==> arms[i] != NoneTy;
      assert GetTypes(t) == {UnionTok} + ArmsTokens(arms, false);
    }
  }

  /** `LeafTokensExposed` for a container, from the same fact for its arguments. */
  lemma {:induction false} ContainerExposed(t: Ty, p: Prim)
    requires t.Container? && WellFormed(t)
    ensures LeafTok(Leaf(p)) in GetTypes(t) <==> p in Exposed(t)
    decreases t, 1
  {
    if !t.spelling.Subscripted? {
      assert GetTypes(t) == {Walker.MarkerOf(t.kind)};
    } else if t.kind == Tuple {
      TupleExposed(t, p);
    } else if t.kind in {Dict, DefaultDict} {
      DictExposed(t, p);
    } else {
      ListSetExposed(t, p);
    }
  }

  /** `LeafTokensExposed` for a parameterised tuple. */
  lemma {:induction false} TupleExposed(t: Ty, p: Prim)
    requires t.Container? && t.kind == Tuple && t.spelling.Subscripted? && WellFormed(t)
    ensures LeafTok(Leaf(p)) in GetTypes(t) <==> p in Exposed(t)
    decreases t, 0
  {
    var args := t.spelling.args;
    forall i | 0 <= i < |args| {
      LeafTokensExposed(args[i], p);
    }
    ArmsTokensUnion(args, false, LeafTok(Leaf(p)));
    assert GetTypes(t) == {TupleTok} + ArmsTokens(args, false);
  }

  /** `LeafTokensExposed` for a parameterised dict, which has a key and a value type. */
  lemma {:induction false} DictExposed(t: Ty, p: Prim)
    requires t.Container? && t.kind in {Dict, DefaultDict} && t.spelling.Subscripted? && WellFormed(t)
    ensures LeafTok(Leaf(p)) in GetTypes(t) <==> p in Exposed(t)
    decreases t, 0
  {
    var args := t.spelling.args;
    LeafTokensExposed(args[0], p);
    LeafTokensExposed(args[1], p);
    assert GetTypes(t) == {DictTok} + GetTypes(args[0]) + GetTypes(args[1]);
    assert p in Exposed(t) <==> p in Exposed(args[0]) || p in Exposed(args[1]);
  }

  /** `LeafTokensExposed` for a parameterised list or set, which has one element type. */
  lemma {:induction false} ListSetExposed(t: Ty, p: Prim)
    requires t.Container? && t.kind in {List, Set, FrozenSet} && t.spelling.Subscripted? && WellFormed(t)
    ensures LeafTok(Leaf(p)) in GetTypes(t) <==> p in Exposed(t)
    decreases t, 0
  {
    var args := t.spelling.args;
    LeafTokensExposed(args[0], p);
    assert GetTypes(t) == {Walker.MarkerOf(t.kind)} + GetTypes(args[0]);
    assert p in Exposed(t) <==> p in Exposed(args[0]);
  }

  /**
   The intended validator accepts a well-formed model exactly when every
   leaf type its declaration names is a TOML primitive.
   */
  lemma ValidateSoundAndComplete(model: Ty)
    requires model.Record? && WellFormed(model)
    ensures Validate(model).Success? <==> Exposed(model) <= TomlPrims
  {
    if Exposed(model) <= TomlPrims {
      forall k | k in GetTypes(model)
        ensures k in Walker.TomlTypes
      {
        if k.LeafTok? {
          LeafTokensExposed(model, k.ty.prim);
        }
      }
    }
    if GetTypes(model) <= Walker.TomlTypes {
      forall p | p in Exposed(model)
        ensures p in TomlPrims
      {
        LeafTokensExposed(model, p);
      }
    }
  }
}
