/** The compatibility check `validate` of tosholi/validate.py. */
module Validator {
  import opened Wrappers
  import opened Types
  import opened Walker

  /** The `TypeError` raised by `validate`: the model's name and every unsupported token. */
  datatype UnsupportedTypeError = UnsupportedTypeError(model: string, unsupported: set<Token>)

  /**
   `validate(model)`: collects the model's tokens, removes the allow-list and
   fails when anything is left, naming every leftover token.
   */
  function Validate(model: Ty): (r: Result<(), UnsupportedTypeError>)
    requires model.Record?
    ensures r.Success? <==> GetTypes(model) <= TomlTypes
    ensures r.Failure? ==> r.error.model == model.name
    ensures r.Failure? ==> r.error.unsupported != {}
    ensures r.Failure? ==> forall k :: k in r.error.unsupported <==> k in GetTypes(model) && k !in TomlTypes
  {
    var remainder := GetTypes(model) - TomlTypes;
    if |remainder| > 0 then Failure(UnsupportedTypeError(model.name, remainder))
    else Success(())
  }

  /**
   Only opaque leaf types can make validation fail: every marker the walker
   produces is on the allow-list.
   */
  lemma {:induction false} OnlyLeavesRejected(model: Ty, k: Token)
    requires model.Record?
    requires Validate(model).Failure? && k in Validate(model).error.unsupported
    ensures k.LeafTok? && k.ty.Leaf?
    ensures k.ty.prim !in {Str, Int, Float, Bool, DateTime, Ellipsis}
  {
  }
}
