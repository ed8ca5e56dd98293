/**
 Two inputs on which `get_types` as written disagrees with what `validate`
 is meant to decide, because the optional branch recurses into its first
 argument only.
 */
module Findings {
  import opened Wrappers
  import opened Types
  import opened Walker
  import opened Validator
  import Intended

  /** A model whose one field is `Optional[Union[int, bytes]]`, stored by Python as `Union[int, bytes, None]`. */
  const HiddenBytes: Ty := Record("M", [Some(Union(TypingUnion, [Leaf(Int), Leaf(Bytes), NoneTy]))])

  /** A model whose one field is `Union[None, str]`, the same Python type as `Optional[str]`. */
  const NoneFirst: Ty := Record("M", [Some(Union(TypingUnion, [NoneTy, Leaf(Str)]))])

  /** The as-written tokens of `HiddenBytes`: `bytes` never surfaces. */
  lemma HiddenBytesTokens(m: Ty)
    requires m == HiddenBytes
    ensures GetTypes(m) == {DataclassMarker, OptionalTok, LeafTok(Leaf(Int))}
  {
    var u := m.fields[0].value;
    OptionalTokens(u);
    LeafTokens(Leaf(Int));
    assert FieldsTokens(m, 1) == FieldsTokens(m, 0) + GetTypes(u);
    RecordUnfold(m);
  }

  /** The as-written tokens of `NoneFirst`: `NoneType` surfaces and `str` does not. */
  lemma NoneFirstTokens(m: Ty)
    requires m == NoneFirst
    ensures GetTypes(m) == {DataclassMarker, OptionalTok, LeafTok(NoneTy)}
  {
    var u := m.fields[0].value;
    OptionalTokens(u);
    LeafTokens(NoneTy);
    assert FieldsTokens(m, 1) == FieldsTokens(m, 0) + GetTypes(u);
    RecordUnfold(m);
  }

  /**
   As written, `validate` accepts a model that can hold `bytes`, which TOML
   cannot represent; the corrected validator rejects it.
   */
  lemma OptionalHidesLaterArms()
    ensures Intended.WellFormed(HiddenBytes)
    ensures Bytes in Intended.Exposed(HiddenBytes) && Bytes !in Intended.TomlPrims
    ensures Validate(HiddenBytes).Success?
    ensures Intended.Validate(HiddenBytes).Failure?
  {
    HiddenBytesTokens(HiddenBytes);
    var u := Union(TypingUnion, [Leaf(Int), Leaf(Bytes), NoneTy]);
    assert u.arms[1] == Leaf(Bytes) && Bytes in Intended.Exposed(u.arms[1]);
    assert Bytes in Intended.Exposed(u);
    assert HiddenBytes.fields[0] == Some(u);
    Intended.ValidateSoundAndComplete(HiddenBytes);
  }

  /**
   As written, `validate` rejects `Union[None, str]` although every value of
   it is a string or absent; the corrected validator accepts it.
   */
  lemma NoneFirstRejected()
    ensures Intended.WellFormed(NoneFirst)
    ensures Intended.Exposed(NoneFirst) == {Str}
    ensures Validate(NoneFirst) == Failure(UnsupportedTypeError("M", {LeafTok(NoneTy)}))
    ensures Intended.Validate(NoneFirst).Success?
  {
    NoneFirstTokens(NoneFirst);
    var u := Union(TypingUnion, [NoneTy, Leaf(Str)]);
    assert Intended.Exposed(u) == {Str} by {
      assert Intended.Exposed(u.arms[1]) == {Str};
    }
    assert NoneFirst.fields[0] == Some(u);
    assert Intended.Exposed(NoneFirst) == {Str};
    assert GetTypes(NoneFirst) - TomlTypes == {LeafTok(NoneTy)};
    Intended.ValidateSoundAndComplete(NoneFirst);
  }
}
