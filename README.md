# Shippable built-in functions of pg_lake, in Dafny

pg_lake decides whether DuckDB can compute a query instead of PostgreSQL.
One part of that decision is a whitelist of PostgreSQL built-in functions
that DuckDB evaluates the same way. The whitelist lives in
`pg_lake_engine/src/pgduck/shippable_builtin_functions.c`. Each entry gives:

- the function's name;
- its kind: aggregate `'a'`, plain function `'f'` or window function `'w'`;
- its number of arguments and its argument types;
- an optional validator.

A validator looks at the actual call and may still refuse it, for example
`encode` with a format other than base64 or hex.

The model has seven modules:

- `Wrappers` holds `Option`.
- `ShippableFunctions` holds:
  - the entry record `ShippableFunction`;
  - the kind codes;
  - the validator tags;
  - the reference predicates for a well-formed entry (`WellFormed`,
    `ExpectedValidator`) and for a table without two entries of the same
    signature (`NoDuplicateSignatures`);
  - generic lemmas about a table put together from blocks of entries.
- `BuiltinProcs` holds all 292 entries of `ShippableBuiltinProcs`, in source
  order, and `GetShippableBuiltinFunctions`. The table is written as
  consecutive blocks of source lines. Each block also carries the set of
  function names it defines. Lemmas check the blocks one at a time, and
  chunk by chunk inside large blocks; `AllBlocksOk` combines them. The
  grouping is only a proof device: `ShippableBuiltinProcs` is the plain
  concatenation of the blocks.
- `TableFacts` holds properties of the whole table:
  - every entry is well-formed;
  - no signature appears twice;
  - the validated entries are exactly the ten the source names;
  - individual entries are present, and the entries the source leaves
    commented out are absent.
- `Nodes` holds the parse-tree nodes the validators inspect: `FuncExpr`,
  `Const` and `Var`. It also holds models of `exprType`,
  `contain_volatile_functions` and `GetConstArg`.
- `CaseFold` holds `pg_strcasecmp`.
- `Validators` holds the six validators and the lemmas about them.

Types are identified by their `pg_type` names (`"text"`, `"int4"`, ...)
rather than by OIDs. The table's C initialisers give no argument types for
zero-argument entries: `count(*)` is written `{NULL}` and `now()` is written
`{}`. Both are modelled as the empty list.

The validators take the node by value, and `requires node.FuncExpr?` stands
for the `castNode(FuncExpr, node)` each of them performs.

The validators read constants' datums, so they assume `ArgsWellTyped`. This
is PostgreSQL's own invariant for constant nodes: a non-null `text` constant
holds a string and an `int4` constant holds a 32-bit integer. A PostgreSQL
`text` value never contains a NUL byte, so the C string that
`text_to_cstring` makes of it ends exactly where the text does.

The kind of an entry is a closed datatype with three values. A kind code
outside `'a'`, `'f'` and `'w'` therefore cannot occur, and the kind-code
conjunct of `TableFacts.TableWellFormed` holds by construction
(`ShippableFunctions.KindCodeRoundTrip`).

## Model

| member | source | states |
|---|---|---|
| BuiltinProcs.GetShippableBuiltinFunctions | pg_lake_engine/src/pgduck/shippable_builtin_functions.c:449-455 | returns the table itself and stores its number of entries in the size out-parameter |
| BuiltinProcs.AllBlocksOk | pg_lake_engine/src/pgduck/shippable_builtin_functions.c:48-442 | every block of table lines holds only well-formed entries named in the block's name set, and no two blocks share a function name |
| TableFacts.TableWellFormed | pg_lake_engine/src/pgduck/shippable_builtin_functions.c:48-442 | every entry's argument count equals the length of its type list; its kind code is one of a, f, w; it carries exactly the validator its signature calls for |
| TableFacts.TableNoDuplicates | pg_lake_engine/src/pgduck/shippable_builtin_functions.c:48-442 | no two entries have the same name, kind and argument types, so a signature lookup finds at most one entry |
| TableFacts.ZeroArityListsNoTypes | pg_lake_engine/src/pgduck/shippable_builtin_functions.c:48-442 | an entry has zero arguments exactly when it lists no argument types (count(*), now(), pi(), rank(), ...) |
| TableFacts.CountStarPresent | pg_lake_engine/src/pgduck/shippable_builtin_functions.c:50 | count(*) is listed as a zero-argument aggregate without validator |
| TableFacts.NowPresent | pg_lake_engine/src/pgduck/shippable_builtin_functions.c:259 | now() is listed as a zero-argument function without validator |
| TableFacts.PiPresent | pg_lake_engine/src/pgduck/shippable_builtin_functions.c:316 | pi() is listed as a zero-argument function without validator |
| TableFacts.RandomPresent | pg_lake_engine/src/pgduck/shippable_builtin_functions.c:329 | random() is listed as a zero-argument function without validator |
| TableFacts.RankPresent | pg_lake_engine/src/pgduck/shippable_builtin_functions.c:376 | rank() is listed as a zero-argument window function |
| TableFacts.NumericCastPresent | pg_lake_engine/src/pgduck/shippable_builtin_functions.c:175 | numeric(numeric, int4) is listed with the IsCast validator |
| TableFacts.CharCastPresent | pg_lake_engine/src/pgduck/shippable_builtin_functions.c:213 | char(text) is listed with the IsCast validator |
| TableFacts.BpcharCastPresent | pg_lake_engine/src/pgduck/shippable_builtin_functions.c:219 | bpchar(bpchar, int4, bool) is listed with the IsCast validator |
| TableFacts.ToCharTimestampPresent | pg_lake_engine/src/pgduck/shippable_builtin_functions.c:261 | to_char(timestamp, text) is listed with the IsConvertibleToChar validator |
| TableFacts.ToCharTimestamptzPresent | pg_lake_engine/src/pgduck/shippable_builtin_functions.c:262 | to_char(timestamptz, text) is listed with the IsConvertibleToChar validator |
| TableFacts.ConcatPresent | pg_lake_engine/src/pgduck/shippable_builtin_functions.c:283 | concat(any) is listed with the IsConcatShippable validator |
| TableFacts.ArrayLengthPresent | pg_lake_engine/src/pgduck/shippable_builtin_functions.c:354 | array_length(anyarray, int4) is listed with the IsArrayLengthShippable validator |
| TableFacts.ConcatWsPresent | pg_lake_engine/src/pgduck/shippable_builtin_functions.c:405 | concat_ws(text, any) is listed with the IsConcatShippable validator |
| TableFacts.EncodePresent | pg_lake_engine/src/pgduck/shippable_builtin_functions.c:438 | encode(bytea, text) is listed with the IsEncodeShippable validator |
| TableFacts.DecodePresent | pg_lake_engine/src/pgduck/shippable_builtin_functions.c:439 | decode(text, text) is listed with the IsDecodeShippable validator |
| TableFacts.ValidatedEntriesInTable | pg_lake_engine/src/pgduck/shippable_builtin_functions.c:175-439 | each of the ten validated signatures is in the table with its validator |
| TableFacts.OnlyValidatedEntriesCarryValidators | pg_lake_engine/src/pgduck/shippable_builtin_functions.c:48-442 | a table entry has a validator if and only if it is one of the ten validated signatures; every other entry ships on signature alone |
| TableFacts.AvgSumEntries | pg_lake_engine/src/pgduck/shippable_builtin_functions.c:55-75 | avg and sum are listed only for int2, int4, int8, float4, float8 and numeric |
| TableFacts.IntervalAggregatesAbsent | pg_lake_engine/src/pgduck/shippable_builtin_functions.c:55-68 | avg(interval) and sum(interval), which DuckDB lacks, are not in the table |
| TableFacts.DateTruncEntries | pg_lake_engine/src/pgduck/shippable_builtin_functions.c:255-257 | date_trunc is listed only for (text, interval), (text, timestamp) and (text, timestamptz) |
| TableFacts.DateTruncWithZoneAbsent | pg_lake_engine/src/pgduck/shippable_builtin_functions.c:264-265 | the three-argument date_trunc with a time zone is not in the table |
| TableFacts.RegexpReplaceEntries | pg_lake_engine/src/pgduck/shippable_builtin_functions.c:267-268 | regexp_replace is listed only with three or four text arguments |
| TableFacts.RegexpReplaceInt4VariantsAbsent | pg_lake_engine/src/pgduck/shippable_builtin_functions.c:270-281 | none of the regexp_replace variants taking int4 positions is in the table |
| ShippableFunctions.KindOfCode | pg_lake_engine/src/pgduck/shippable_builtin_functions.c:48-442 | decoding a kind code succeeds exactly for a, f and w |
| ShippableFunctions.KindCodeRoundTrip | pg_lake_engine/src/pgduck/shippable_builtin_functions.c:48-442 | every kind's code is one of a, f, w and decodes back to that kind |
| ShippableFunctions.KindCodeInjective | pg_lake_engine/src/pgduck/shippable_builtin_functions.c:48-442 | distinct kinds have distinct codes |
| ShippableFunctions.ValidatedEntriesExactly | pg_lake_engine/src/pgduck/shippable_builtin_functions.c:175-439 | a well-formed entry carries a validator if and only if it is one of the ten validated signatures |
| ShippableFunctions.EntriesOk | pg_lake_engine/src/pgduck/shippable_builtin_functions.c:48-442 | a table built from checked blocks has only well-formed entries, no duplicate signatures, and every entry of a name lies in that name's block |
| ShippableFunctions.InEntries | pg_lake_engine/src/pgduck/shippable_builtin_functions.c:48-442 | an entry is in the table exactly when it is in one of its blocks |
| Validators.IsConcatShippable | pg_lake_engine/src/pgduck/shippable_builtin_functions.c:483-509 | the loop returns true if and only if every argument's type is one of unknown, text, varchar, bpchar, char, int2, int4, int8, float4, float8, numeric, uuid |
| Validators.ConcatRejectsBool | pg_lake_engine/src/pgduck/shippable_builtin_functions.c:466-474 | one bool argument anywhere makes concat unshippable |
| Validators.ConcatArgsAppend | pg_lake_engine/src/pgduck/shippable_builtin_functions.c:489-505 | the argument check holds for a joined list exactly when it holds for both parts |
| Validators.ConcatWsChecksSeparator | pg_lake_engine/src/pgduck/shippable_builtin_functions.c:479-509 | for concat_ws the separator is checked like any other argument: the call passes exactly when the separator's type and every remaining argument pass |
| Validators.FormatNameIff | pg_lake_engine/src/pgduck/shippable_builtin_functions.c:534-535 | on a NUL-free format, the two case-insensitive comparisons accept exactly the formats whose lower-cased form is base64 or hex |
| Validators.FormatArgIsBase64OrHex | pg_lake_engine/src/pgduck/shippable_builtin_functions.c:524-535 | the shared format test holds exactly when the node is a call whose argument 1 is a non-null text constant equal to base64 or hex, ignoring ASCII case |
| Validators.IsEncodeShippable | pg_lake_engine/src/pgduck/shippable_builtin_functions.c:516-540 | true if and only if argument 1 is a non-null text constant whose lower-cased value is base64 or hex; a missing, non-constant, null or non-text format refuses |
| Validators.IsDecodeShippable | pg_lake_engine/src/pgduck/shippable_builtin_functions.c:547-571 | true if and only if argument 1 is a non-null text constant whose lower-cased value is base64 or hex; a missing, non-constant, null or non-text format refuses |
| Validators.EncodeDecodeAgree | pg_lake_engine/src/pgduck/shippable_builtin_functions.c:516-571 | encode and decode accept exactly the same calls |
| Validators.IsArrayLengthShippable | pg_lake_engine/src/pgduck/shippable_builtin_functions.c:579-597 | true if and only if argument 1 is a non-null int4 constant with value 1 |
| Validators.ArrayLengthOtherDimension | pg_lake_engine/src/pgduck/shippable_builtin_functions.c:587-594 | array_length(a, d) with a constant dimension d other than 1 is refused |
| Validators.IsCast | pg_lake_engine/src/pgduck/shippable_builtin_functions.c:605-611 | true if and only if the call was written as an explicit or implicit cast |
| Validators.IsCastDistinguishesSpelling | pg_lake_engine/src/pgduck/shippable_builtin_functions.c:600-611 | a call written in function-call form or as SQL syntax is not a cast |
| Validators.IsConvertibleToChar | pg_lake_engine/src/pgduck/shippable_builtin_functions.c:618-640 | true if and only if no node of the call is a volatile call, argument 1 is a non-null text constant, and the strftime translation accepts that format |
| Validators.VolatileNeverConvertible | pg_lake_engine/src/pgduck/shippable_builtin_functions.c:620-625 | a call containing a volatile function is refused whatever the format |
| Validators.ConvertibleToCharOrder | pg_lake_engine/src/pgduck/shippable_builtin_functions.c:624-639 | when the volatility test refuses, the format translator has no say; when it passes with a text constant format, the translator alone decides |
| Nodes.ContainVolatileIffSubExpr | pg_lake_engine/src/pgduck/shippable_builtin_functions.c:624 | the recursive volatility walk finds a volatile call exactly when some node of the tree is one |
| Validators.RunValidator | pg_lake_engine/src/pgduck/shippable_builtin_functions.c:175-439 | the validator tag an entry names selects its check: for each of the six tags the verdict is exactly that validator's condition on the call |
| Nodes.ContainVolatileFunctions | pg_lake_engine/src/pgduck/shippable_builtin_functions.c:624 | a call to a volatile function is always found, and a node that is not a call never contains one |
| Nodes.ExprType | pg_lake_engine/src/pgduck/shippable_builtin_functions.c:492 | the type of a call is its result type, and the type of a constant or column is its declared type |
| Nodes.GetConstArg | pg_lake_engine/src/pgduck/shippable_builtin_functions.c:525-526 | the lookup succeeds exactly when the node is a call whose argument n is a constant, and then it hands back that argument |
| CaseFold.FoldAscii | pg_lake_engine/src/pgduck/shippable_builtin_functions.c:534-535 | folding maps A-Z to a-z, leaves every other character unchanged, and maps a character to NUL only when it is NUL |
| CaseFold.PgStrCaseCmp | pg_lake_engine/src/pgduck/shippable_builtin_functions.c:534-535 | a string always compares equal to itself |
| CaseFold.PgStrCaseCmpZeroIff | pg_lake_engine/src/pgduck/shippable_builtin_functions.c:534-535 | on NUL-free strings pg_strcasecmp returns 0 exactly when the strings agree after ASCII lower-casing |

## Left out

- The lookup is not modelled. The code that matches a call against the table by name, kind and argument types is not part of this model. `TableNoDuplicates` states the property that lookup relies on.
- BuildStrftimeChain: its code (pg_lake/pgduck/to_char.h) is not part of this model. `IsConvertibleToChar` takes its check-only result as the parameter `formatConvertible`.
- Validators.IsConvertibleToChar: applies `formatConvertible` to the format text alone. The C code passes the whole call to BuildStrftimeChain (line 639). The model therefore assumes that, once the volatility and format-constant tests pass, only the format string decides.
- Which validator runs for a call is decided by the caller that looks the call up in the table. That caller is not part of this model. `Validators.RunValidator` models only the step from a tag to its check.
- GetConstArg: its code (pg_lake/parsetree/const.h) is not part of this model. `Nodes.GetConstArg` models it: a call's argument `n` is returned when it is a constant node.
- Nodes.GetConstArg: does not model any other constant-extraction rule the real helper may have, such as looking through a relabelling node.
- OIDs are not modelled. Types are their `pg_type` names. `exprType` is modelled only for function calls, constants and column references.
- CaseFold.PgStrCaseCmpZeroIff: the model folds ASCII letters only. It does not model pg_strcasecmp's locale-dependent folding of characters with the high bit set, because that depends on the server's locale.
- Memory handling is not modelled: `text_to_cstring`, `pfree` and the datum's varlena form. A text datum is the string itself.
- The debug-only `Assert(list_length(funcExpr->args) == 2)` of the encode, decode and array_length validators is not modelled. It is not a precondition in release builds. The model instead handles a call with fewer arguments as a refusal.
- Validators.IsConcatShippable: requires a call node. This models `castNode`; in release builds a non-call node has undefined behaviour.
- BuiltinProcs.GetShippableBuiltinFunctions: states that `size` is the length of the table, without the literal count. The count is 292 entries by construction, but stating it is too expensive to prove.
- The tests under pg_lake_spatial, and pg_lake_iceberg/src/test/rest_catalog.c, are not part of this model.
- concat_ws is not checked from the second argument onward. The comment at lines 479-480 can be read as saying the separator is exempt, but the code calls the same validator for concat_ws, and it checks every argument, the separator included. The model follows the code (`Validators.ConcatWsChecksSeparator`). Since the separator is declared text, this refuses only calls whose separator has another type.
