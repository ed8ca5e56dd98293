/**
 The declared-type values the validator inspects, and the tokens it
 produces. Python builds these at run time from type hints; here they are an
 inductive datatype, so a record type can only mention records declared
 before it (no cycles).
 */
module Types {
  import opened Wrappers

  /** Container classes the classifiers recognise, whatever their spelling. */
  datatype Builtin = List | Set | FrozenSet | Tuple | Dict | DefaultDict

  /**
   How a container type is written:
   - BareClass: the built-in class itself (`list`, `defaultdict`);
   - BareAlias: the unsubscripted typing alias (`typing.List`, `typing.DefaultDict`);
   - Subscripted: a parameterised form (`List[int]`, `dict[str, int]`, `Tuple[int, ...]`),
     holding its type arguments.
   */
  datatype Spelling = BareClass | BareAlias | Subscripted(args: seq<Ty>)

  /** `typing.Union[...]` / `typing.Optional[...]` versus the `X | Y` operator form. */
  datatype UnionSyntax = TypingUnion | PipeUnion

  /**
   Types that no classifier recognises. `NoneType` is `type(None)`; `Ellipsis`
   is the `...` of a variadic tuple; anything else (`Any`, `Decimal`, a
   `Sequence[int]`) is `Other`.
   */
  datatype Prim = Str | Int | Float | Bool | DateTime | Bytes | NoneType | Ellipsis | Other(name: string)

  /**
   A declared type. A record's fields keep declaration order; a field is
   `Some` of its resolved hint, and `None` stands for a hint the
   `is not None` guard of `get_dataclass_fields` would skip, which a real
   data class never has.
   */
  datatype Ty =
    | Leaf(prim: Prim)
    | Record(name: string, fields: seq<Option<Ty>>)
    | Union(syntax: UnionSyntax, arms: seq<Ty>)
    | Container(kind: Builtin, spelling: Spelling)

  /**
   What the walker collects: one marker per structural kind, or an
   unclassified type added as itself.
   */
  datatype Token =
    | DataclassMarker
    | OptionalTok
    | UnionTok
    | ListTok
    | SetTok
    | TupleTok
    | DictTok
    | LeafTok(ty: Ty)

  /** `type(None)`, the arm that makes a union optional. */
  const NoneTy: Ty := Leaf(NoneType)
}
