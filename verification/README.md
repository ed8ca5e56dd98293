# tosholi type-shape validation and scrubbing, in Dafny

tosholi maps Python data classes to and from TOML. Before it decodes a
document into a data class, it checks that the class's declared shape can be
represented in TOML at all. This project models that check and the `None`
scrubbing done before dumping:

- **Classifiers** (`Classify`): `is_dict`, `is_list`, `is_optional`, `is_set`,
  `is_tuple` and `is_union`, each modelled the way the source computes it.
  The four container classifiers take `typing.get_origin`, call `issubclass`
  on the origin, and fall back to a membership test against the bare
  spellings when `issubclass` raises `TypeError`. `is_optional` and
  `is_union` compare the origin with `typing.Union` and `types.UnionType`;
  `is_optional` then looks for `NoneType` among `typing.get_args`. Each
  predicate's contract states which types it accepts.
- **Walker** (`Walker`): `get_dataclass_fields`, and `get_types` with its
  inner `_recurse`. The walker folds a declared type into a set of tokens.
  Branches are tried in the source's order: record, optional, union, list,
  set, tuple, dict, then opaque leaf. `GetTypes` is the pure fold. `Recurse`
  is the source's accumulating recursion with its early `if cls in types:
  return`, and it is proved equal to the fold.
- **Validator** (`Validator`): `validate`. It subtracts the allow-list
  `TomlTypes` from the walker's tokens and fails when anything is left. The
  error names the model and every leftover token.
- **Scrubbing** (`Format`): `_scrub`. It deletes `None`-valued entries from
  nested dicts, descending through dicts only. The model also records what
  `dump` and `dumps` hand to the TOML encoder.

Declared types are the inductive datatype `Types.Ty`:

- `Leaf` covers `str`, `int`, `float`, `bool`, `datetime`, `bytes`,
  `NoneType`, `...`, and anything no classifier recognises.
- `Record` is a data class, its fields in declaration order. A field is
  `Some(t)` for its resolved hint; `None` models the guard
  `if real_type is not None` in `get_dataclass_fields`
  (tosholi/validate.py:43-45). For a real data class that guard never fails:
  every field has a hint, and a hint that does not resolve makes
  `typing.get_type_hints` raise before the loop.
- `Union` has either syntax: `Union[...]`/`Optional[...]` or `X | Y`.
- `Container` covers list, set, frozenset, tuple, dict and defaultdict. Each
  can be spelled as the bare class (`list`), the bare typing alias
  (`typing.List`), or subscripted (`List[int]`, `dict[str, int]`).

Tokens are `Types.Token`. There is one marker per structural kind, and
`LeafTok(t)` is a type added verbatim. Dict values produced by
`dataclasses.asdict` are `Format.Value`. A dict is an ordered sequence of
key/value pairs.

Three points of the code shape the model:

- The optional branch of `_recurse` recurses into `args[0]` only, whatever
  it is (tosholi/validate.py:66-68). See Findings.
- The early return `if cls in types` (tosholi/validate.py:57-58) compares a
  *type* with the collected *tokens*. It only skips a type that is itself a
  token already present: a leaf, or a bare `typing.List`/`Set`/`Tuple`/`Dict`.
  `Walker.TokenOf` captures exactly this. A record is never skipped, so a
  self-referential record recurses without end. `Ty` is inductive, so the
  model has no such records.
- `is_optional` tests only whether `NoneType` is among `typing.get_args(t)`
  of a union (tosholi/validate.py:130-136).

## Model

| member | source | states |
|---|---|---|
| `Classify.IsDict` | tosholi/validate.py:100-111 | true exactly for `dict` and `defaultdict` in all three spellings, via the origin test or the `TypeError` fallback |
| `Classify.IsList` | tosholi/validate.py:114-122 | true exactly for `list` in all three spellings |
| `Classify.IsOptional` | tosholi/validate.py:125-137 | true exactly for a union, in either syntax, that has a `NoneType` arm |
| `Classify.IsSet` | tosholi/validate.py:140-151 | true exactly for `set` and `frozenset` in all three spellings |
| `Classify.IsTuple` | tosholi/validate.py:154-162 | true exactly for `tuple` in all three spellings |
| `Classify.IsUnion` | tosholi/validate.py:165-174 | true exactly for a union in either syntax, optional or not |
| `Classify.IsSubclass` | tosholi/validate.py:105-111 | `issubclass` raises `TypeError` exactly when the origin is `None` or the `Union` special form, and holds only for a built-in container class |
| `Classify.GetOrigin` | tosholi/validate.py:128-135 | `typing.get_origin` gives the `Union` form for `Union[...]`, `types.UnionType` for `X \| Y`, the container class for an alias or subscripted container, and nothing for a bare class |
| `Classify.OptionalIsUnion` | tosholi/validate.py:125-174 | every optional type is also a union |
| `Classify.ClassifiersDisjoint` | tosholi/validate.py:100-174 | at most one container classifier holds; none holds for a union; no classifier holds for a leaf such as `str` |
| `Walker.TomlTypes` | tosholi/validate.py:12-29 | the allow-list: `str`, `int`, `float`, `bool`, `datetime`, `...` and the List, Tuple, Set, Dict, data-class, Optional and Union markers |
| `Classify.IsRecord` | tosholi/validate.py:60 | `isinstance(cls, DataClassProtocol)`: a type is walked as a data class exactly when it is a `Record` |
| `Walker.DataclassFields` | tosholi/validate.py:34-46 | the result is exactly the set of field types that pass the `is not None` guard, with repeats collapsed |
| `Walker.GetTypes` | tosholi/validate.py:49-97 | the token set is never empty, and the only types added verbatim are opaque leaves (never a record, union or container) |
| `Walker.TokenOf` | tosholi/validate.py:57-58 | a type that equals a token yields exactly that token, so the early return loses nothing |
| `Walker.Recurse` | tosholi/validate.py:56-94 | the accumulating recursion with its early return adds exactly the pure fold's tokens to those already collected |
| `Walker.RecurseEach` | tosholi/validate.py:71-72 | the loop over a union's or tuple's arguments adds the union of every argument's tokens |
| `Walker.GetTypesImperative` | tosholi/validate.py:54-97 | running `_recurse` from an empty set gives the pure fold |
| `Walker.ArgsTokensUnion` | tosholi/validate.py:85-86 | a token comes from the argument loop exactly when some argument yields it |
| `Walker.FieldsTokensUnion` | tosholi/validate.py:62-63 | a token comes from the field loop exactly when some annotated field yields it |
| `Walker.RecordTokens` | tosholi/validate.py:60-63 | a record yields the data-class marker plus the tokens of every extracted field type, and never itself |
| `Walker.RecordWrapping` | tests/validate_test.py:76-93 | a record whose only field is another record yields the same tokens as that record |
| `Walker.OptionalTokens` | tosholi/validate.py:64-68 | an optional yields the Optional marker plus the tokens of its first argument only |
| `Walker.UnionTokens` | tosholi/validate.py:69-72 | a non-optional union yields the Union marker plus the tokens of every arm, and nothing else |
| `Walker.BareContainerTokens` | tosholi/validate.py:73-92 | an unsubscripted container yields only its marker |
| `Walker.ListSetTokens` | tosholi/validate.py:73-82 | a list, set or frozenset yields its marker plus the tokens of its first argument |
| `Walker.TupleTokens` | tosholi/validate.py:83-86 | a tuple yields its marker plus the tokens of every argument, `...` included |
| `Walker.DictTokens` | tosholi/validate.py:87-92 | a dict yields its marker plus its key and value tokens when it has exactly two arguments, and only the marker otherwise |
| `Walker.LeafTokens` | tosholi/validate.py:93-94 | an unclassified type yields itself and nothing else |
| `Validator.Validate` | tosholi/validate.py:177-197 | succeeds exactly when every token is on the allow-list; otherwise it fails with the model's name and exactly the leftover tokens |
| `Validator.OnlyLeavesRejected` | tosholi/validate.py:12-29 | every rejected token is an opaque leaf outside `str`, `int`, `float`, `bool`, `datetime` and `...` |
| `Fixtures.DataclassFieldsExample` | tests/validate_test.py:29-36 | a class with an `int` field and a `Union[str, int]` field yields exactly `{int, Union[str, int]}`; the unannotated class attribute is not a field |
| `Fixtures.OptionalStrTokens` | tests/validate_test.py:42 | `Optional[str]` yields `{Optional, str}` |
| `Fixtures.UnionPairTokens` | tests/validate_test.py:43 | `Union[str, int]` yields `{Union, str, int}` |
| `Fixtures.ContainerBasicTokens` | tests/validate_test.py:45-49 | `List[str]`, `Set[str]`, `Tuple[str, int]`, `Dict[str, int]` and `bool` yield the expected sets |
| `Fixtures.VariadicUnionTupleTokens` | tests/validate_test.py:62 | `Tuple[Union[X, Y], ...]` yields Tuple, Union, X, Y and the ellipsis |
| `Fixtures.NestedDataclassTokens` | tests/validate_test.py:56-93 | `_ClassA`, `_ClassB` and `_ClassC` all yield the same twelve tokens |
| `Fixtures.ClassifierSpellings` | tests/validate_test.py:96-147 | `Dict[str, str]`, `Dict`, `dict[str, str]` and `dict` are dicts, and likewise for list, set and tuple; `Union[str, None]`, `Optional[str]` and `str \| None` are optional; `str` fails every classifier |
| `Fixtures.ValidateAccepts` | tests/validate_test.py:150-159 | the model of `float`, `List[Optional[str]]`, `Dict[str, int]`, `Tuple[Union[str, int], ...]` and `Set[float]` passes |
| `Fixtures.ValidateRejectsBytes` | tests/validate_test.py:161-166 | a model with a `bytes` field fails, and the error names exactly `bytes` |
| `Intended.GetTypes` | tosholi/validate.py:64-68 | corrected walker: the only types it adds verbatim are opaque leaves |
| `Intended.Validate` | tosholi/validate.py:191-197 | corrected validator: succeeds exactly when the corrected tokens are all allowed; otherwise it fails with the model's name and exactly the corrected tokens not on the allow-list |
| `Intended.LeafTokensExposed` | tosholi/validate.py:60-94 | for a well-formed type, the corrected walker surfaces a leaf exactly when the declaration names it through fields, non-`None` union arms and container arguments (a bare container names none) |
| `Intended.ValidateSoundAndComplete` | tosholi/validate.py:177-197 | the corrected validator accepts a well-formed model exactly when every leaf type its declaration names is a TOML primitive |
| `Findings.OptionalHidesLaterArms` | tosholi/validate.py:64-68 | as written, a model with an `Optional[Union[int, bytes]]` field passes `validate`, although its values can be `bytes` |
| `Findings.NoneFirstRejected` | tosholi/validate.py:64-68 | as written, a model with a `Union[None, str]` field fails with `NoneType`, although its values are only strings or absent |
| `Format.Scrub` | tosholi/format.py:12-19 | a non-dict is returned unchanged; a dict stays a dict no longer than before, and no dict reachable through dicts holds `None` |
| `Format.ScrubEntries` | tosholi/format.py:15-19 | every kept value is non-`None` and scrubbed; the kept keys are exactly those whose value was not `None`, in their original relative order |
| `Format.ScrubLookup` | tosholi/format.py:15-19 | looking a key up after scrubbing finds nothing if its value was `None` or it was absent, and otherwise finds the scrubbed value |
| `Format.ScrubKeepsKeysDistinct` | tosholi/format.py:15-17 | a scrubbed dict still has distinct keys |
| `Format.ScrubFixesNullFree` | tosholi/format.py:12-19 | a value with no `None` in any nested dict is unchanged by scrubbing |
| `Format.ScrubIdempotent` | tosholi/format.py:12-19 | scrubbing twice equals scrubbing once |
| `Format.ScrubUnchangedIff` | tosholi/format.py:12-19 | scrubbing leaves a value unchanged exactly when no nested dict holds `None` |
| `Format.DumpPayload` | tosholi/format.py:29-31 | `dump` hands the encoder a mapping with no `None` in any nested dict |
| `Format.DumpDumpsAgree` | tosholi/format.py:22-44 | `dump` and `dumps` hand the encoder the same mapping exactly when it holds no `None` in nested dicts |
| `Format.DumpDropsNoneExample` | tests/format_test.py:62-77 | a `None` field is absent from what `dump` encodes but present in what `dumps` encodes |
| `Format.ScrubNestedExample` | tosholi/format.py:14-19 | nested dicts are scrubbed, but a dict inside a list keeps its `None` |

## Findings

| source | as written | input that shows it | evidently intended | confidence | as-written member | corrected member |
|---|---|---|---|---|---|---|
| tosholi/validate.py:64-68 | an optional union recurses into `args[0]` only | a field `Optional[Union[int, bytes]]`, which Python stores with arguments `(int, bytes, NoneType)`: `validate` accepts it, although TOML cannot hold `bytes` | recurse into every arm except `NoneType`, and reject the model | high (not executed) | `Findings.OptionalHidesLaterArms` | `Intended.ValidateSoundAndComplete` |
| tosholi/validate.py:64-68 | `args[0]` of an optional may itself be `NoneType` | a field `Union[None, str]`, equal as a Python type to `Optional[str]`: `validate` rejects it, naming `NoneType` | skip the `NoneType` arm and accept the model | high (not executed) | `Findings.NoneFirstRejected` | `Intended.ValidateSoundAndComplete` |

`Validator.Validate` and `Walker.GetTypes` keep the behaviour as written.
`Intended` holds the corrected walker and validator, and the theorem stating
what they decide.

## Left out

- `Walker.DataclassFields`: merges two field types only when they are structurally identical. Python's set in `get_dataclass_fields` (tosholi/validate.py:39-45) uses `typing`'s equality, under which unions equal up to arm order are one type. That holds inside container arguments too: `Union[None, str] == Optional[str]` and `List[Union[None, str]] == List[Optional[str]]`. The set keeps whichever of the two came first.
- `Walker.GetTypes`: the record branch walks every declared field. The source walks the merged set, so it can differ for a record with two fields whose unions are equal up to arm order but whose first arms differ. For `a: Optional[str]; b: Union[None, str]`, the source walks only `Optional[str]` and accepts, while the model also walks `Union[None, str]` and rejects `NoneType`. The same holds for `Union[int, bytes, None]` followed by `Union[bytes, int, None]`.
- `Walker.Recurse`: the field loop has the same difference as `Walker.GetTypes`, to which it is proved equal.

- `tosholi/parse.py` (`load`, `loads`, `parse`): thin wrappers over `tomllib` and `dacite`. Its only relevant behaviour is that `loads` calls `validate` before decoding.
- TOML encoding and decoding (`tomli_w`, `tomllib`) are external libraries. The model stops at the mapping handed to the encoder, so the table layout the tests assert is not modelled.
- Python reflection (`dataclasses.fields`, `dataclasses.asdict`, `typing.get_type_hints` with forward-reference resolution): a `Record` carries its resolved field types, and `Value` is the output of `asdict`.
- The `runtime_checkable` `DataClassProtocol` check is the `Record` constructor.
- The Python-version branches of `is_optional` and `is_union`: the model assumes Python 3.10 or later, where `X | Y` exists.
- Python's union normalisation (flattening, removing duplicates, `Union[X]` being `X`): a `Union` holds its arms exactly as `get_args` would return them.
- Container classes other than list, set, frozenset, tuple, dict and defaultdict are not in `Ty`. Some of them pass the `issubclass` test of the source (tosholi/validate.py:106-109, 120, 146-149, 160): `typing.OrderedDict`, `collections.OrderedDict[str, int]`, `typing.Counter[str]`, and subscripted generic subclasses such as `Stack[int]` for `class Stack(list[T])`. The source walks those as dicts or lists, so it accepts a model with an `OrderedDict[str, int]` field. A `Leaf(Other(..))` stands only for types that no classifier accepts, such as `Sequence[int]` or `bytes`, so such fields are outside the model rather than rejected by it.
- Cyclic or self-referential records: `Ty` is inductive. The source recurses without end on them, as noted above.
- `is_literal`: the test suite imports it, but `tosholi/validate.py` does not define it.
- The exact wording of the validation error and the `str()` of each type: the error carries the model name and the set of leftover tokens.
- Aliasing: `_scrub` mutates in place. `asdict` returns fresh containers, so the pure function has the same effect.
- `Format.DumpsPayload`: has no contract of its own, because it is the identity. Its relation to `dump` is stated by `Format.DumpDumpsAgree`.
- `Intended.LeafTokensExposed`: stated only for well-formed types, meaning typing aliases with their required argument counts (one for list and set, two for dict). Builtin generics do not check their argument count, and the source walks `dict[bytes]` as a bare dict and `list[int, bytes]` as a list of `int`.
- `Intended.LeafTokensExposed`: relates the walker to the leaf types a declaration names, not to the values it admits. A bare `list` or `dict` names no leaf although its values may hold `bytes`, and `Tuple[int, ...]` names `...`, which no value holds. Like the source, the corrected walker checks declarations only.
- `Intended.ValidateSoundAndComplete`: accepts a model with a bare `list`, `set`, `tuple` or `dict` field, whose values may hold unsupported leaves such as `bytes`, because the theorem is about named leaf types and a bare container names none.
- `Intended.ValidateSoundAndComplete`: stated only for well-formed models, for the same reason as `Intended.LeafTokensExposed` above. For a model with a field such as `dict[bytes]` or `list[int, bytes]`, the corrected validator still ignores the arguments the walker skips, and the theorem makes no claim about such models.
