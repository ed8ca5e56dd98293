/**
 The concrete cases of tests/validate_test.py, stated over the model:
 each lemma pins the walker, the classifiers or the validator on one of the
 types that test suite declares.
 */
module Fixtures {
  import opened Wrappers
  import opened Types
  import opened Classify
  import opened Walker
  import opened Validator

  const StrT: Ty := Leaf(Str)
  const IntT: Ty := Leaf(Int)
  const FloatT: Ty := Leaf(Float)
  const BoolT: Ty := Leaf(Bool)
  const BytesT: Ty := Leaf(Bytes)
  const EllipsisT: Ty := Leaf(Ellipsis)

  /** `Optional[X]`, which Python stores as `Union[X, None]`. */
  function OptionalOf(x: Ty): Ty {
    Union(TypingUnion, [x, NoneTy])
  }

  /** `_ClassA` of the nested-data-class test. */
  const ClassA: Ty := Record("_ClassA", [
    Some(IntT),
    Some(StrT),
    Some(Container(List, Subscripted([OptionalOf(StrT)]))),
    Some(Container(Dict, Subscripted([StrT, IntT]))),
    Some(Container(Tuple, Subscripted([Union(TypingUnion, [BytesT, StrT]), EllipsisT]))),
    Some(Container(Set, Subscripted([FloatT])))
  ])

  /** `_ClassB` holds a `_ClassA`, `_ClassC` holds a `_ClassB`. */
  const ClassB: Ty := Record("_ClassB", [Some(ClassA)])
  const ClassC: Ty := Record("_ClassC", [Some(ClassB)])

  /** The token set the nested-data-class test expects for all three. */
  const NestedTokens: set<Token> := {
    DataclassMarker, DictTok, LeafTok(EllipsisT), ListTok, OptionalTok, SetTok,
    TupleTok, UnionTok, LeafTok(BytesT), LeafTok(FloatT), LeafTok(IntT), LeafTok(StrT)
  }

  /** `ArgsTokens` of a one- and a two-element argument list. */
  lemma ArgsTokensSmall(a: Ty, b: Ty)
    ensures ArgsTokens([a]) == GetTypes(a)
    ensures ArgsTokens([a, b]) == GetTypes(a) + GetTypes(b)
  {
    assert [a][..0] == [];
    assert [a, b][..1] == [a];
  }

  /** The two annotated fields are collected as a set; an unannotated class attribute is no field. */
  lemma DataclassFieldsExample()
    ensures DataclassFields(Record("_ClassA", [Some(IntT), Some(Union(TypingUnion, [StrT, IntT]))]))
         == {IntT, Union(TypingUnion, [StrT, IntT])}
  {
    var t := Record("_ClassA", [Some(IntT), Some(Union(TypingUnion, [StrT, IntT]))]);
    assert t.fields[0] == Some(IntT);
    assert t.fields[1] == Some(Union(TypingUnion, [StrT, IntT]));
  }

  /** `Optional[str]` gives the Optional marker and `str`, not the Union marker. */
  lemma OptionalStrTokens()
    ensures GetTypes(OptionalOf(StrT)) == {OptionalTok, LeafTok(StrT)}
  {
    OptionalTokens(OptionalOf(StrT));
    LeafTokens(StrT);
  }

  /** `Union[X, Y]` of two non-None leaves gives the Union marker and both leaves. */
  lemma UnionPairTokens(x: Ty, y: Ty)
    requires x.Leaf? && y.Leaf? && x != NoneTy && y != NoneTy
    ensures GetTypes(Union(TypingUnion, [x, y])) == {UnionTok, LeafTok(x), LeafTok(y)}
  {
    var u := Union(TypingUnion, [x, y]);
    assert NoneTy !in u.arms;
    ArgsTokensSmall(x, y);
    LeafTokens(x);
    LeafTokens(y);
    UnionUnfold(u);
  }

  /** The remaining basic cases: list, set, tuple, dict and a plain leaf. */
  lemma ContainerBasicTokens()
    ensures GetTypes(Container(List, Subscripted([StrT]))) == {ListTok, LeafTok(StrT)}
    ensures GetTypes(Container(Set, Subscripted([StrT]))) == {SetTok, LeafTok(StrT)}
    ensures GetTypes(Container(Tuple, Subscripted([StrT, IntT]))) == {TupleTok, LeafTok(StrT), LeafTok(IntT)}
    ensures GetTypes(Container(Dict, Subscripted([StrT, IntT]))) == {DictTok, LeafTok(StrT), LeafTok(IntT)}
    ensures GetTypes(BoolT) == {LeafTok(BoolT)}
  {
    LeafTokens(StrT);
    LeafTokens(IntT);
    LeafTokens(BoolT);
    ListSetTokens(List, [StrT]);
    ListSetTokens(Set, [StrT]);
    DictTokens(Dict, [StrT, IntT]);
    ArgsTokensSmall(StrT, IntT);
    TupleUnfold([StrT, IntT]);
  }

  /** The tokens of `Tuple[Union[X, Y], ...]`. */
  lemma VariadicUnionTupleTokens(x: Ty, y: Ty)
    requires x.Leaf? && y.Leaf? && x != NoneTy && y != NoneTy
    ensures GetTypes(Container(Tuple, Subscripted([Union(TypingUnion, [x, y]), EllipsisT])))
         == {TupleTok, UnionTok, LeafTok(x), LeafTok(y), LeafTok(EllipsisT)}
  {
    var args := [Union(TypingUnion, [x, y]), EllipsisT];
    UnionPairTokens(x, y);
    LeafTokens(EllipsisT);
    ArgsTokensSmall(args[0], args[1]);
    TupleUnfold(args);
  }

  /** The tokens of `List[Optional[str]]`. */
  lemma ListOptionalTokens()
    ensures GetTypes(Container(List, Subscripted([OptionalOf(StrT)]))) == {ListTok, OptionalTok, LeafTok(StrT)}
  {
    OptionalStrTokens();
    ListSetTokens(List, [OptionalOf(StrT)]);
  }

  /** The tokens of `Set[float]`. */
  lemma SetFloatTokens()
    ensures GetTypes(Container(Set, Subscripted([FloatT]))) == {SetTok, LeafTok(FloatT)}
  {
    ListSetTokens(Set, [FloatT]);
    LeafTokens(FloatT);
  }

  /** The tokens of `Dict[str, int]`. */
  lemma DictStrIntTokens()
    ensures GetTypes(Container(Dict, Subscripted([StrT, IntT]))) == {DictTok, LeafTok(StrT), LeafTok(IntT)}
  {
    DictTokens(Dict, [StrT, IntT]);
    LeafTokens(StrT);
    LeafTokens(IntT);
  }

  /** The tokens of `_ClassA`'s first two fields, `int` and `str`. */
  lemma ClassAFieldTokens2(a: Ty)
    requires a == ClassA
    ensures FieldsTokens(a, 2) == {LeafTok(IntT), LeafTok(StrT)}
  {
    LeafTokens(IntT);
    LeafTokens(StrT);
    assert FieldsTokens(a, 1) == FieldsTokens(a, 0) + GetTypes(IntT);
  }

  /** Adding `List[Optional[str]]` and `Dict[str, int]`. */
  lemma ClassAFieldTokens4(a: Ty)
    requires a == ClassA
    ensures FieldsTokens(a, 4) == {LeafTok(IntT), LeafTok(StrT), ListTok, OptionalTok, DictTok}
  {
    ClassAFieldTokens2(a);
    ListOptionalTokens();
    DictStrIntTokens();
    assert FieldsTokens(a, 3) == FieldsTokens(a, 2) + GetTypes(a.fields[2].value);
  }

  /** Adding `Tuple[Union[bytes, str], ...]`. */
  lemma ClassAFieldTokens5(a: Ty)
    requires a == ClassA
    ensures FieldsTokens(a, 5) == NestedTokens - {DataclassMarker, SetTok, LeafTok(FloatT)}
  {
    ClassAFieldTokens4(a);
    VariadicUnionTupleTokens(BytesT, StrT);
    assert FieldsTokens(a, 5) == FieldsTokens(a, 4) + GetTypes(a.fields[4].value);
  }

  /** Adding `Set[float]`. */
  lemma ClassAFieldTokens(a: Ty)
    requires a == ClassA
    ensures FieldsTokens(a, 6) == NestedTokens - {DataclassMarker}
  {
    ClassAFieldTokens5(a);
    SetFloatTokens();
    assert FieldsTokens(a, 6) == FieldsTokens(a, 5) + GetTypes(a.fields[5].value);
  }

  /** Nesting `_ClassA` inside `_ClassB` and `_ClassC` leaves the token set unchanged. */
  lemma NestedDataclassTokens()
    ensures GetTypes(ClassA) == NestedTokens
    ensures GetTypes(ClassB) == NestedTokens
    ensures GetTypes(ClassC) == NestedTokens
  {
    ClassAFieldTokens(ClassA);
    RecordUnfold(ClassA);
    RecordWrapping("_ClassB", ClassA);
    RecordWrapping("_ClassC", ClassB);
  }

  /** Both spellings, bare and parameterised, of each container classify; `str` never does. */
  lemma ClassifierSpellings()
    ensures IsDict(Container(Dict, Subscripted([StrT, StrT]))) && IsDict(Container(Dict, BareAlias))
    ensures IsDict(Container(Dict, BareClass)) && IsDict(Container(DefaultDict, BareAlias)) && !IsDict(StrT)
    ensures IsList(Container(List, Subscripted([StrT]))) && IsList(Container(List, BareAlias))
    ensures IsList(Container(List, BareClass)) && !IsList(StrT)
    ensures IsSet(Container(Set, Subscripted([StrT]))) && IsSet(Container(Set, BareAlias))
    ensures IsSet(Container(Set, BareClass)) && IsSet(Container(FrozenSet, BareClass)) && !IsSet(StrT)
    ensures IsTuple(Container(Tuple, Subscripted([StrT]))) && IsTuple(Container(Tuple, BareAlias))
    ensures IsTuple(Container(Tuple, BareClass)) && !IsTuple(StrT)
    ensures IsOptional(OptionalOf(StrT)) && IsOptional(Union(PipeUnion, [StrT, NoneTy])) && !IsOptional(StrT)
    ensures IsUnion(Union(TypingUnion, [StrT, IntT])) && IsUnion(Union(PipeUnion, [StrT, IntT]))
    ensures IsUnion(Union(PipeUnion, [StrT, NoneTy])) && !IsUnion(StrT)
  {
  }

  /** The accepted model of the validation test. */
  const ValidModel: Ty := Record("_ClassA", [
    Some(FloatT),
    Some(Container(List, Subscripted([OptionalOf(StrT)]))),
    Some(Container(Dict, Subscripted([StrT, IntT]))),
    Some(Container(Tuple, Subscripted([Union(TypingUnion, [StrT, IntT]), EllipsisT]))),
    Some(Container(Set, Subscripted([FloatT])))
  ])

  /** The tokens of the accepted model's first three fields. */
  lemma ValidModelTokens3(a: Ty)
    requires a == ValidModel
    ensures FieldsTokens(a, 3) == {LeafTok(FloatT), ListTok, OptionalTok, LeafTok(StrT), DictTok, LeafTok(IntT)}
  {
    LeafTokens(FloatT);
    ListOptionalTokens();
    DictStrIntTokens();
    assert FieldsTokens(a, 1) == FieldsTokens(a, 0) + GetTypes(FloatT);
    assert FieldsTokens(a, 2) == FieldsTokens(a, 1) + GetTypes(a.fields[1].value);
  }

  /** Every token of the accepted model is on the allow-list. */
  lemma ValidModelTokens(a: Ty)
    requires a == ValidModel
    ensures GetTypes(a) <= TomlTypes
  {
    ValidModelTokens3(a);
    VariadicUnionTupleTokens(StrT, IntT);
    SetFloatTokens();
    assert FieldsTokens(a, 4) == FieldsTokens(a, 3) + GetTypes(a.fields[3].value);
    RecordUnfold(a);
  }

  /** A model of `float`, `List[Optional[str]]`, `Dict[str, int]`, `Tuple[Union[str, int], ...]` and `Set[float]` passes. */
  lemma ValidateAccepts()
    ensures Validate(ValidModel).Success?
  {
    ValidModelTokens(ValidModel);
  }

  /** A model with a `bytes` field fails, and the error names `bytes`. */
  lemma ValidateRejectsBytes()
    ensures Validate(Record("_ClassB", [Some(BytesT)]))
         == Failure(UnsupportedTypeError("_ClassB", {LeafTok(BytesT)}))
  {
    var b := Record("_ClassB", [Some(BytesT)]);
    LeafTokens(BytesT);
    assert FieldsTokens(b, 1) == FieldsTokens(b, 0) + GetTypes(BytesT);
    RecordUnfold(b);
    assert GetTypes(b) - TomlTypes == {LeafTok(BytesT)};
  }
}
