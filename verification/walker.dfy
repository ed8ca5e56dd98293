/**
 The type-shape walker of tosholi/validate.py (`get_dataclass_fields`,
 `get_types` and its `_recurse`), written once as a pure fold and once as
 the source's accumulating recursion with its early return.
 */
module Walker {
  import opened Wrappers
  import opened Types
  import opened Classify

  /** The allow-list `TomlTypes`: what a TOML document can hold. */
  const TomlTypes: set<Token> := {
    LeafTok(Leaf(Str)), LeafTok(Leaf(Int)), LeafTok(Leaf(Float)), LeafTok(Leaf(Bool)),
    LeafTok(Leaf(DateTime)), LeafTok(Leaf(Ellipsis)),
    ListTok, TupleTok, SetTok, DictTok, DataclassMarker,
    OptionalTok, UnionTok
  }

  /** `get_dataclass_fields`: the set of the record's resolved field types. */
  function DataclassFields(t: Ty): (r: set<Ty>)
    requires t.Record?
    ensures forall f :: f in r <==> Some(f) in t.fields
  {
    set i | 0 <= i < |t.fields| && t.fields[i].Some? :: t.fields[i].value
  }

  /**
   `get_types`: the tokens reachable from `t`. The branches are tried in the
   source's order: record, optional, union, list, set, tuple, dict, leaf.
   An optional recurses into its first argument only; a dict recurses into
   its arguments only when there are exactly two.
   */
  function GetTypes(t: Ty): (r: set<Token>)
    ensures r != {}
    ensures forall k :: k in r && k.LeafTok? ==> k.ty.Leaf?
    decreases t, 1, 0
  {
    if IsRecord(t) then
      {DataclassMarker} + FieldsTokens(t, |t.fields|)
    else if IsOptional(t) then
      {OptionalTok} + FirstTokens(t.arms)
    else if IsUnion(t) then
      {UnionTok} + ArgsTokens(t.arms)
    else if IsList(t) then
      {ListTok} + (if t.spelling.Subscripted? then FirstTokens(t.spelling.args) else {})
    else if IsSet(t) then
      {SetTok} + (if t.spelling.Subscripted? then FirstTokens(t.spelling.args) else {})
    else if IsTuple(t) then
      {TupleTok} + (if t.spelling.Subscripted? then ArgsTokens(t.spelling.args) else {})
    else if IsDict(t) then
      {DictTok} +
      (if t.spelling.Subscripted? && |t.spelling.args| == 2
       then GetTypes(t.spelling.args[0]) + GetTypes(t.spelling.args[1])
       else {})
    else
      {LeafTok(t)}
  }

  /** The tokens of the first argument, if there is one. */
  function FirstTokens(args: seq<Ty>): (r: set<Token>)
    ensures forall k :: k in r && k.LeafTok? ==> k.ty.Leaf?
    ensures |args| > 0 ==> r == GetTypes(args[0])
    ensures |args| == 0 ==> r == {}
    decreases args, 0, 0
  {
    if |args| > 0 then GetTypes(args[0]) else {}
  }

  /** The union of the tokens of every argument. */
  function ArgsTokens(args: seq<Ty>): (r: set<Token>)
    ensures forall k :: k in r && k.LeafTok? ==> k.ty.Leaf?
    decreases args, 0, 0
  {
    if |args| == 0 then {}
    else ArgsTokens(args[..|args| - 1]) + GetTypes(args[|args| - 1])
  }

  /**
   The union of the tokens of the first `n` fields of record `t`;
   unannotated fields add nothing.
   */
  function FieldsTokens(t: Ty, n: nat): (r: set<Token>)
    requires t.Record? && n <= |t.fields|
    ensures forall k :: k in r && k.LeafTok? ==> k.ty.Leaf?
    decreases t, 0, n
  {
    if n == 0 then {}
    else
      FieldsTokens(t, n - 1) +
      (if t.fields[n - 1].Some? then GetTypes(t.fields[n - 1].value) else {})
  }

  /**
   The token `t` itself is equal to, if any: a leaf type is its own token, and
   the bare typing aliases `List`, `Set`, `Tuple` and `Dict` are the markers.
   Such a type yields exactly that token, which is why `_recurse` may stop
   early when it finds `t` among the tokens collected so far.
   */
  function TokenOf(t: Ty): (r: Option<Token>)
    ensures r.Some? ==> GetTypes(t) == {r.value}
  {
    match t
    case Leaf(_) => Some(LeafTok(t))
    case Container(List, BareAlias) => Some(ListTok)
    case Container(Set, BareAlias) => Some(SetTok)
    case Container(Tuple, BareAlias) => Some(TupleTok)
    case Container(Dict, BareAlias) => Some(DictTok)
    case _ => None
  }

  /**
   `_recurse`: adds the tokens of `t` to the tokens collected so far,
   returning at once when `t` is itself one of them.
   */
  method Recurse(t: Ty, types: set<Token>) returns (out: set<Token>)
    ensures out == types + GetTypes(t)
    decreases t, 1
  {
    var self := TokenOf(t);
    if self.Some? && self.value in types {
      return types;
    }
    if IsRecord(t) {
      out := types + {DataclassMarker};
      // The source loops over the Python set `get_dataclass_fields` returns;
      // this loop walks every field in declaration order. With structural
      // equality the two agree (`RecordTokens` states the result through
      // `DataclassFields`): a repeated type only adds its tokens again. They
      // differ where Python's set merges unions equal up to arm order.
      var i := 0;
      while i < |t.fields|
        invariant 0 <= i <= |t.fields|
        invariant out == types + {DataclassMarker} + FieldsTokens(t, i)
      {
        if t.fields[i].Some? {
          out := Recurse(t.fields[i].value, out);
        }
        i := i + 1;
      }
    } else if IsOptional(t) {
      out := types + {OptionalTok};
      if |t.arms| > 0 {
        out := Recurse(t.arms[0], out);
      }
    } else if IsUnion(t) {
      out := RecurseEach(t.arms, types + {UnionTok});
    } else if IsList(t) {
      out := types + {ListTok};
      if t.spelling.Subscripted? && |t.spelling.args| > 0 {
        out := Recurse(t.spelling.args[0], out);
      }
    } else if IsSet(t) {
      out := types + {SetTok};
      if t.spelling.Subscripted? && |t.spelling.args| > 0 {
        out := Recurse(t.spelling.args[0], out);
      }
    } else if IsTuple(t) {
      out := types + {TupleTok};
      if t.spelling.Subscripted? {
        out := RecurseEach(t.spelling.args, out);
      }
    } else if IsDict(t) {
      out := types + {DictTok};
      if t.spelling.Subscripted? && |t.spelling.args| == 2 {
        out := Recurse(t.spelling.args[0], out);
        out := Recurse(t.spelling.args[1], out);
      }
    } else {
      out := types + {LeafTok(t)};
    }
  }

  /** The `for arg in typing.get_args(cls)` loop of the union and tuple branches. */
  method RecurseEach(args: seq<Ty>, types: set<Token>) returns (out: set<Token>)
    ensures out == types + ArgsTokens(args)
    decreases args, 0
  {
    out := types;
    var i := 0;
    while i < |args|
      invariant 0 <= i <= |args|
      invariant out == types + ArgsTokens(args[..i])
    {
      out := Recurse(args[i], out);
      assert args[..i + 1][..i] == args[..i];
      i := i + 1;
    }
    assert args[..i] == args;
  }

  /** `get_types` as the source runs it: `_recurse` from an empty set. */
  method GetTypesImperative(t: Ty) returns (types: set<Token>)
    ensures types == GetTypes(t)
  {
    types := Recurse(t, {});
  }

  /** The marker a container of this class contributes. */
  function MarkerOf(kind: Builtin): Token {
    match kind
    case List => ListTok
    case Set => SetTok
    case FrozenSet => SetTok
    case Tuple => TupleTok
    case Dict => DictTok
    case DefaultDict => DictTok
  }

  /** `ArgsTokens` is the union of the tokens of every argument. */
  lemma {:induction false} ArgsTokensUnion(args: seq<Ty>, k: Token)
    ensures k in ArgsTokens(args) <==> exists i :: 0 <= i < |args| && k in GetTypes(args[i])
  {
    if |args| > 0 {
      var init := args[..|args| - 1];
      ArgsTokensUnion(init, k);
      if k in ArgsTokens(init) {
        var i :| 0 <= i < |init| && k in GetTypes(init[i]);
        assert args[i] == init[i];
      }
      if exists i :: 0 <= i < |args| && k in GetTypes(args[i]) {
        var i :| 0 <= i < |args| && k in GetTypes(args[i]);
        if i < |args| - 1 {
          assert init[i] == args[i];
        }
      }
    }
  }

  /** `FieldsTokens` is the union of the tokens of every annotated field among the first `n`. */
  lemma {:induction false} FieldsTokensUnion(t: Ty, n: nat, k: Token)
    requires t.Record? && n <= |t.fields|
    ensures k in FieldsTokens(t, n) <==>
      exists i :: 0 <= i < n && t.fields[i].Some? && k in GetTypes(t.fields[i].value)
  {
    if n > 0 {
      FieldsTokensUnion(t, n - 1, k);
    }
  }

  /**
   A record contributes the data-class marker and the tokens of every type
   `get_dataclass_fields` returns; the record type itself never appears.
   */
  lemma {:induction false} RecordTokens(t: Ty, k: Token)
    requires t.Record?
    ensures k in GetTypes(t) <==>
      k == DataclassMarker || exists f :: f in DataclassFields(t) && k in GetTypes(f)
    ensures LeafTok(t) !in GetTypes(t)
  {
    FieldsTokensUnion(t, |t.fields|, k);
    if k in FieldsTokens(t, |t.fields|) {
      var i :| 0 <= i < |t.fields| && t.fields[i].Some? && k in GetTypes(t.fields[i].value);
      assert Some(t.fields[i].value) in t.fields;
    }
    if exists f :: f in DataclassFields(t) && k in GetTypes(f) {
      var f :| f in DataclassFields(t) && k in GetTypes(f);
      var i :| 0 <= i < |t.fields| && t.fields[i] == Some(f);
    }
  }

  /** Wrapping a record as the only field of another record changes nothing. */
  lemma RecordWrapping(name: string, inner: Ty)
    requires inner.Record?
    ensures GetTypes(Record(name, [Some(inner)])) == GetTypes(inner)
  {
    var outer := Record(name, [Some(inner)]);
    assert FieldsTokens(outer, 1) == FieldsTokens(outer, 0) + GetTypes(inner);
  }

  /**
   An optional adds the Optional marker and the tokens of its first argument
   only, never the Union marker for that node.
   */
  lemma OptionalTokens(t: Ty)
    requires IsOptional(t)
    ensures |t.arms| > 0
    ensures GetTypes(t) == {OptionalTok} + GetTypes(t.arms[0])
  {
  }

  /** A union without a `NoneType` arm adds the Union marker and the tokens of every arm. */
  lemma UnionTokens(t: Ty, k: Token)
    requires IsUnion(t) && !IsOptional(t)
    ensures k in GetTypes(t) <==> k == UnionTok || exists i :: 0 <= i < |t.arms| && k in GetTypes(t.arms[i])
  {
    ArgsTokensUnion(t.arms, k);
  }

  /** A container written without arguments yields only its marker. */
  lemma BareContainerTokens(kind: Builtin, spelling: Spelling)
    requires !spelling.Subscripted?
    ensures GetTypes(Container(kind, spelling)) == {MarkerOf(kind)}
  {
  }

  /** A list or set adds its marker and the tokens of its first argument. */
  lemma ListSetTokens(kind: Builtin, args: seq<Ty>)
    requires kind in {List, Set, FrozenSet} && |args| > 0
    ensures GetTypes(Container(kind, Subscripted(args))) == {MarkerOf(kind)} + GetTypes(args[0])
  {
  }

  /** A tuple adds its marker and the tokens of every argument, `...` included. */
  lemma TupleTokens(args: seq<Ty>, k: Token)
    ensures k in GetTypes(Container(Tuple, Subscripted(args))) <==>
      k == TupleTok || exists i :: 0 <= i < |args| && k in GetTypes(args[i])
  {
    ArgsTokensUnion(args, k);
  }

  /** A dict adds its key and value tokens only when it has exactly two arguments. */
  lemma DictTokens(kind: Builtin, args: seq<Ty>)
    requires kind in {Dict, DefaultDict}
    ensures |args| == 2 ==>
      GetTypes(Container(kind, Subscripted(args))) == {DictTok} + GetTypes(args[0]) + GetTypes(args[1])
    ensures |args| != 2 ==> GetTypes(Container(kind, Subscripted(args))) == {DictTok}
  {
  }

  /** One unfolding of the walker on a record. */
  lemma RecordUnfold(t: Ty)
    requires t.Record?
    ensures GetTypes(t) == {DataclassMarker} + FieldsTokens(t, |t.fields|)
  {
  }

  /** One unfolding of the walker on a parameterised tuple. */
  lemma TupleUnfold(args: seq<Ty>)
    ensures GetTypes(Container(Tuple, Subscripted(args))) == {TupleTok} + ArgsTokens(args)
  {
  }

  /** One unfolding of the walker on a union without a `NoneType` arm. */
  lemma UnionUnfold(t: Ty)
    requires t.Union? && NoneTy !in t.arms
    ensures GetTypes(t) == {UnionTok} + ArgsTokens(t.arms)
  {
  }

  /** A type no classifier recognises is added as itself. */
  lemma LeafTokens(t: Ty)
    requires t.Leaf?
    ensures GetTypes(t) == {LeafTok(t)}
  {
  }
}
