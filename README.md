# Snowflake dialect of a Django database backend, in Dafny

This project models the Snowflake dialect layer of the `django_snowflake`
Django backend and of its `django_snowflake_cs` variant. That layer is what
the backend adds on top of Django's base classes:

- the SQL fragment renderers of `DatabaseOperations`: identifier quoting,
  bitwise combinators, time-zone wrapping, EXTRACT and DATE_TRUNC, duration
  arithmetic, the regex lookup, flush statements, VALUES lists and
  LIMIT/OFFSET;
- the JSON path compiler and the key-transform and has-key lookups;
- the INSERT compiler, with its column dropping, DEFAULT expansion,
  transposition into rows, three statement shapes and `parse_json` SELECT
  wrapper;
- the introspection parsers (`VARCHAR(11)`, `NUMBER(38,0)`,
  `VARCHAR(n) COLLATE 'x'`), the column-kind decision table, identifier case
  conversion, the DESCRIBE/SHOW row mappings and the constraint map of
  `get_constraints`;
- the function renderers (POSITION argument swap, COALESCE-wrapped CONCAT,
  CEIL, COLLATE quoting, UNIFORM random) and their registry;
- the `data_types`, `operators`, `pattern_ops` and `pattern_esc` tables and
  `get_connection_params`;
- the `snowsql` command line of the client;
- the schema editor: column DDL, `add_field` statement order, the
  `_alter_field` auto-field rule and the no-op index operations;
- the connection pool: a bounded FIFO of idle connections with `get`, `put`,
  `close` and the two leasing context managers.

Each source file becomes one module: `Base`, `Client`, `Operations`,
`Lookups`, `Compiler`, `Schema`, `Introspection`, `CsIntrospection`,
`CsConstraints`, `Functions`, `CsFunctions` and `Pool`. Shared modules
hold what several files use:

- `Common`: Option and Result, parameters, `(sql, params)` fragments, and
  string and number helpers.
- `FieldKinds`: Django's field kinds.
- `TypeParsers`: the hand-modelled regular expressions and the decision
  table that both introspection files share.
- `Expressions`: a small expression language standing for Django's
  `Func.as_sql` rendering.

`Introspection` and `CsIntrospection` model two separate files whose
DESCRIBE rows have different layouts and whose field records differ, so each
keeps its own description loop and primary-key search over its own record.

Python exceptions are modelled as `Err(message)` results. The pyformat
binding of the driver (`%s` binds the next parameter, `%%` is a literal
`%`) is modelled by `PlaceholderCount`. A fragment is `Balanced` when its
placeholders match its parameters, and most renderers are proved to keep
fragments balanced.

Parts that change state step by step are methods proved against
specification functions:

- the INSERT compiler's loop;
- `get_connection_params`, `settings_to_cmd_args_env` and `sql_flush`;
- `compile_json_path` and `has_key_lookup`;
- the four loops of `get_constraints`;
- the schema editor, whose executed statements are a field;
- the pool classes.

Django's base classes are parameters of the model: `compile_json_path_final_key`,
the base `combine_expression`, the value preparation of the compiler and its
capability flags, and the reverse type table of `get_field_type`.

`pool.py` has no expiry, timestamp or idle-timeout logic. The pool is
modelled as the code has it: a queue bounded only by `maxsize`.

## Model

| member | source | states |
|---|---|---|
| `Base.DataTypesIntegerKinds` | django_snowflake/base.py:23-51 | the three auto kinds are `NUMBER(38, 0) AUTOINCREMENT START 1 INCREMENT 1`, every other integer kind plain `NUMBER(38, 0)`, JSONField `VARIANT` |
| `Base.DataTypesCoverage` | django_snowflake/base.py:23-51 | a field kind has a column type exactly when it is one of the table's kinds |
| `Base.DataTypesVarchar` | django_snowflake/base.py:28-45 | a sized character kind renders `VARCHAR(<max_length>)`, and raises KeyError when `max_length` is missing |
| `Base.DataTypesDecimal` | django_snowflake/base.py:31 | DecimalField renders its digits then its places inside `NUMBER(..., ...)` |
| `Base.OperatorsCaseSensitivity` | django_snowflake/base.py:52-67 | the case-sensitive pattern lookups use `LIKE %s`, their `i` variants and `iexact` use `ILIKE %s`, `exact` is `= %s` |
| `Base.PatternEscIdentity` | django_snowflake/base.py:68 | `pattern_esc` formats any expression to itself |
| `Base.PatternOpsWildcards` | django_snowflake/base.py:69-76 | contains has wildcards on both sides, startswith only after, endswith only before, all under LIKE |
| `Base.PatternOpsCaseInsensitive` | django_snowflake/base.py:69-76 | each `i` pattern is its case-sensitive pattern with `I` in front (ILIKE for LIKE) |
| `Base.IVariants` | django_snowflake/base.py:70-75 | each `i` entry keeps the wildcards of its case-sensitive entry and only changes the operator |
| `Base.PatternOpsBinding` | django_snowflake/base.py:69-76 | the doubled `%%` of a pattern bind no parameter, so a formatted pattern binds exactly what its operand binds |
| `Base.FirstFailingSpec` | django_snowflake/base.py:94-123 | the first failing rule is a failing rule (a missing or falsy required key) and every rule checked before it passes |
| `Base.GetConnectionParams` | django_snowflake/base.py:90-125 | takes the seven steps in the source's order and returns exactly `ConnectionParams`: the error of the first failing step, or the parameters all steps collect |
| `Base.ConnectionParamsSpec` | django_snowflake/base.py:90-125 | raises exactly when a required key is missing or falsy (or a subscripted key is missing), naming the first such key in the fixed order; otherwise holds exactly the truthy keys under their renamed parameters with their values unchanged, and nothing else |
| `Base.CollectedSpec` | django_snowflake/base.py:94-123 | the first n steps collect a parameter exactly for each truthy key among theirs, with that key's value, and no other parameter |
| `Client.SettingsToCmdArgsEnv` | django_snowflake/client.py:10-43 | argv is `snowsql` then the flag pairs in the fixed order; the environment is the password environment; `parameters` changes nothing |
| `Client.FlagArgsStep` | django_snowflake/client.py:23-38 | each `if` of the method appends exactly that setting's flag pair |
| `Client.FlagArgsLength` | django_snowflake/client.py:23-38 | argv after `snowsql` has two entries per truthy setting |
| `Client.FlagArgsAlternate` | django_snowflake/client.py:23-38 | flags and values alternate: each even position is a flag of the table, each odd one a truthy value |
| `Client.FlagArgsIgnorePassword` | django_snowflake/client.py:13-38 | no flag reads the password, so argv does not depend on it |
| `Client.PasswordOnlyInEnvironment` | django_snowflake/client.py:40-43 | the password never reaches argv; the environment is `{SNOWSQL_PWD: password}` exactly when the password is truthy, and None otherwise |
| `Operations.QuoteNameShape` | django_snowflake/operations.py:145-148 | a quoted name is returned verbatim; any other name is upper-cased, split at its dots and quoted part by part |
| `Operations.QuoteNameIdempotent` | django_snowflake/operations.py:145-148 | quoting a quoted name changes nothing |
| `Operations.QuoteNameQualified` | django_snowflake/operations.py:148 | `a.b` quotes as `"A"."B"` |
| `Operations.QuoteNamePlain` | django_snowflake/operations.py:148 | a plain name quotes as its upper-case form in double quotes |
| `Operations.QuoteNamePercentFree` | django_snowflake/operations.py:145-148 | quoting adds no `%` to a name, so a quoted name binds no parameter |
| `Operations.CombineExpressionTable` | django_snowflake/operations.py:24-38 | with two operands each listed connector renders as its function over lhs then rhs, and any other connector is delegated; any other operand count raises |
| `Operations.ConvertSqlToTzSpec` | django_snowflake/operations.py:40-46 | identity unless a zone is named and time zones are on; then the SQL is wrapped in CONVERT_TIMEZONE and the zone name is bound first; balance is kept |
| `Operations.DateExtractSpec` | django_snowflake/operations.py:56-66 | week_day, iso_week_day and iso_year are spelled out (`+ 1` for week_day) and bind nothing extra; any other lookup type is bound as the first parameter; balance is kept |
| `Operations.DatetimeSpec` | django_snowflake/operations.py:48-70 | the datetime cast and extract renderers convert the zone first, then apply the date rule |
| `Operations.TruncSpec` | django_snowflake/operations.py:72-82 | every trunc renders `DATE_TRUNC(%s, ...)` (with `::time` for time_trunc) binding the lookup type, then the zone, then the input's parameters |
| `Operations.FormatForDurationArithmeticBalanced` | django_snowflake/operations.py:84-85 | the INTERVAL binds exactly what its operand binds |
| `Operations.SubtractTemporalsSpec` | django_snowflake/operations.py:176-182 | `TIMEDIFF(MICROSECOND, rhs, lhs)` with the rhs parameters first; only TimeField wraps rhs in `TO_TIME`; balance is kept |
| `Operations.BulkInsertSqlPlaceholders` | django_snowflake/operations.py:19-22 | when every cell is `%s` the VALUES list binds one parameter per cell, row-major |
| `Operations.BulkInsertSqlAppend` | django_snowflake/operations.py:19-22 | each further placeholder row adds one more `, (...)` group, in row order |
| `Operations.RegexLookupCaseSensitivity` | django_snowflake/operations.py:150-152 | `regex` renders the case-sensitive form (option `c`) and only it; every other lookup type renders the case-insensitive `iregex` form |
| `Operations.SqlFlush` | django_snowflake/operations.py:154-174 | one statement per table, in order; none for no tables |
| `Operations.FlushStatementPlain` | django_snowflake/operations.py:158-173 | uncoloured, a statement is `TRUNCATE "T";` when resetting sequences and `DELETE FROM "T";` otherwise |
| `Operations.LimitOffsetSqlCases` | django_snowflake/operations.py:133-140 | LIMIT comes before OFFSET, each only when truthy, joined by one space; empty when neither is |
| `Operations.NoLimitRendersNull` | django_snowflake/operations.py:142-143 | an offset without a limit renders with `LIMIT null` |
| `Lookups.CompileJsonPath` | django_snowflake/lookups.py:6-22 | the loop computes the escaped concatenation of the segments' renderings |
| `Lookups.RawPathEmpty` | django_snowflake/lookups.py:6-22 | the path is empty exactly for no segments |
| `Lookups.JsonPathAppend` | django_snowflake/lookups.py:8-19 | appending a segment appends its escaped rendering; a key gets `:` only as the very first segment |
| `Lookups.KeyAfterIndexUsesPeriod` | django_snowflake/lookups.py:13 | a key after a leading index uses `.` |
| `Lookups.SegmentSql` | django_snowflake/lookups.py:9-19 | an index renders as `[n]`; a key as its separator and `"key"` with every `"` escaped |
| `Lookups.EscapeQuotesRoundTrip` | django_snowflake/lookups.py:15 | reading `\"` back as `"` and every other character as itself recovers the key, and an escaped key never starts with `"`; backslashes are not escaped (see "## Left out") |
| `Lookups.EscapeQuotesInjective` | django_snowflake/lookups.py:15 | distinct keys give distinct escaped keys |
| `Lookups.EscapePercentRoundTrip` | django_snowflake/lookups.py:22 | the result is the unescaped path with every `%` doubled: well escaped, and interpolation gives the unescaped path back |
| `Lookups.EscapePercentGrows` | django_snowflake/lookups.py:22 | escaping lengthens every path that holds a `%` |
| `Lookups.WellEscapedNoPlaceholder` | django_snowflake/lookups.py:20-22 | a compiled path binds no parameter |
| `Lookups.KeyTransformsBalanced` | django_snowflake/lookups.py:25-28 | key_text_transform and key_transform keep the lhs parameters unchanged and bind exactly them, whatever the keys hold |
| `Lookups.CompileKeyPath` | django_snowflake/lookups.py:47-59 | the loop body renders a key's prefix path then its final key, with the first `.` turned into `:` when there is no prefix |
| `Lookups.HasKeyLookup` | django_snowflake/lookups.py:31-66 | the parameters are the lhs parameters alone; the SQL is one condition per key joined by the logical operator in parentheses, or the first key's condition; the logical branch is the corrected one of the second Findings row (the lhs path is not re-interpolated), which differs from lookups.py:62-63 when the lhs path holds a `%` |
| `Lookups.SoleKeyPath` | django_snowflake/lookups.py:55-58 | a key without a prefix path has exactly the first `.` of its final key replaced by `:` |
| `Lookups.HasKeyUsesFirstKey` | django_snowflake/lookups.py:64-65 | without a logical operator only the first key counts |
| `Lookups.HasKeySingleKeyParenthesized` | django_snowflake/lookups.py:61-65 | with a logical operator and one key the SQL is the operator-free SQL in parentheses |
| `Lookups.AsWrittenCondition` | django_snowflake/lookups.py:62-63 | as written, interpolating one condition unescapes the lhs path |
| `Lookups.AsWrittenUnescapesLhsPath` | django_snowflake/lookups.py:61-63 | as written, the logical-operator branch is the condition over the unescaped lhs path |
| `Lookups.AsWrittenLogicalBranchDiffers` | django_snowflake/lookups.py:61-65 | as written, when the lhs path holds a `%` the single-key logical branch differs from the parenthesised plain branch |
| `Lookups.PercentKeyWitness` | django_snowflake/lookups.py:37 | the key `a%b` gives an lhs path that holds a `%` |
| `Compiler.PrepareSpec` | django_snowflake/compiler.py:35-71 | the kept fields stay in order, each with its column; a field is dropped only with a db default and all-DEFAULT values; a field without a db default keeps its values unchanged; a non-empty field list never empties |
| `Compiler.PrepareUpToDropped` | django_snowflake/compiler.py:44-52 | every dropped field had a db default and only DEFAULT values |
| `Compiler.PrepareUpToOrdered` | django_snowflake/compiler.py:28-71 | the kept positions increase |
| `Compiler.PrepareUpToContents` | django_snowflake/compiler.py:28-71 | each kept entry is a visited field with its column |
| `Compiler.KeptColumnSpec` | django_snowflake/compiler.py:54-71 | a kept db-default column is unchanged with the DEFAULT keyword, and otherwise has every DEFAULT replaced by the prepared db default |
| `Compiler.PrepareField` | django_snowflake/compiler.py:35-71 | one loop iteration advances the preparation state by exactly one field |
| `Compiler.PrepareColumns` | django_snowflake/compiler.py:28-71 | the loop yields the kept fields and columns, the SELECT list over every field and the JSON flag |
| `Compiler.PrepareLengths` | django_snowflake/compiler.py:37-71 | every kept column holds one value per object |
| `Compiler.ZipTwice` | django_snowflake/compiler.py:72 | the transposition into rows loses and reorders nothing: transposing back gives the columns |
| `Compiler.ValueRowsShape` | django_snowflake/compiler.py:72-86 | one value row per object, each as long as the column list, which is never empty |
| `Compiler.AsSql` | django_snowflake/compiler.py:9-142 | the compiler's statements, with the SELECT list numbered over the kept fields (the corrected numbering of the first Findings row); the loop's SELECT list over every field is computed and not used |
| `Compiler.InsertSqlOutcome` | django_snowflake/compiler.py:104-142 | fails exactly when it must return a single row's columns and there is no object; otherwise one statement for RETURNING or bulk, one per object else |
| `Compiler.InsertSqlBalanced` | django_snowflake/compiler.py:96-142 | in every branch each statement binds exactly as many parameters as it has placeholders |
| `Compiler.StatementsBalanced` | django_snowflake/compiler.py:104-142 | under a `%`-free wrapper every statement of every branch is balanced |
| `Compiler.ReturningBalanced` | django_snowflake/compiler.py:104-126 | the RETURNING statement binds the VALUES parameters then the returning parameters |
| `Compiler.BulkStatementBalanced` | django_snowflake/compiler.py:131-135 | the bulk statement binds every row's parameters, row-major |
| `Compiler.RowStatementsBalanced` | django_snowflake/compiler.py:136-142 | each per-object statement binds its own row's parameters |
| `Compiler.BulkBalanced` | django_snowflake/compiler.py:132 | the bulk VALUES list binds the flattened row parameters |
| `Compiler.ValuesClauseBalanced` | django_snowflake/compiler.py:114 | `VALUES (...)` of one row binds that row's parameters |
| `Compiler.SelectWrapperAligned` | django_snowflake/compiler.py:28-33 | the corrected SELECT list has one entry per VALUES column, entry j is `$j` (in `parse_json` exactly for a JSONField) of the j-th kept column, and appears exactly when a kept field is a JSONField |
| `Compiler.AsWrittenAgreesWithoutDrops` | django_snowflake/compiler.py:28-76 | when no field is dropped the SELECT list as written is the corrected one |
| `Compiler.AsWrittenSelectMisnumbered` | django_snowflake/compiler.py:28-33 | as written, a dropped field before a JSONField gives a different (misnumbered) statement |
| `Compiler.WitnessColumns` | django_snowflake/compiler.py:28-33 | over the witness fields the SELECT list as written is `$1, parse_json($2)`, and over the kept field it is `parse_json($1)` |
| `Compiler.WitnessShape` | django_snowflake/compiler.py:72-73 | the witness INSERT has the single column `data` and one row of one value |
| `Compiler.StatementsDifferByWrapper` | django_snowflake/compiler.py:128-135 | different SELECT wrappers give different bulk statements |
| `CsConstraints.AddForeignKeyRows` | django_snowflake_cs/introspection.py:63-71 | the foreign-key loop builds the dictionary its specification describes |
| `CsConstraints.AddPrimaryKeyRows` | django_snowflake_cs/introspection.py:74-82 | the primary-key loop builds the dictionary its specification describes |
| `CsConstraints.AddUniqueKeyRows` | django_snowflake_cs/introspection.py:85-106 | the unique-key loop builds the dictionary and orders its specification describes, stopping at the first KeyError |
| `CsConstraints.OrderUniqueColumns` | django_snowflake_cs/introspection.py:108-109 | each name with orders gets its columns sorted by key sequence |
| `CsConstraints.GetConstraints` | django_snowflake_cs/introspection.py:58-110 | the four loops together compute the constraint map |
| `CsConstraints.SortSpec` | django_snowflake_cs/introspection.py:109 | `sorted` returns a sorted permutation of its input |
| `CsConstraints.UniqueRunKeys` | django_snowflake_cs/introspection.py:89-106 | the unique loop raises exactly when a row names a foreign or primary key; otherwise its names are the rows' names, disjoint from those keys |
| `CsConstraints.UniqueRunKeepsBase` | django_snowflake_cs/introspection.py:89-106 | the unique loop leaves the foreign and primary key entries as they are |
| `CsConstraints.UniqueRunFlags` | django_snowflake_cs/introspection.py:98-105 | every unique entry is a bare unique constraint |
| `CsConstraints.UniqueRunOrders` | django_snowflake_cs/introspection.py:96-106 | the orders of a name are its rows' `(key_sequence, column)` pairs in row order |
| `CsConstraints.ConstraintsErr` | django_snowflake_cs/introspection.py:92-96 | get_constraints raises exactly when a unique constraint shares its name with a foreign or primary key |
| `CsConstraints.ConstraintsUnique` | django_snowflake_cs/introspection.py:85-109 | a unique constraint lists its rows' columns sorted by key sequence (then column name), losing none |
| `CsConstraints.ForeignKeyEntries` | django_snowflake_cs/introspection.py:63-71 | every foreign-key entry is a single-column foreign key |
| `CsConstraints.PrimaryKeyEntries` | django_snowflake_cs/introspection.py:74-82 | the primary-key loop marks its names as single-column primary keys and keeps the other entries |
| `CsConstraints.ConstraintsKeys` | django_snowflake_cs/introspection.py:63-82 | foreign and primary key entries are single-column, primary exactly when a primary-key row names them |
| `CsConstraints.ConstraintsNames` | django_snowflake_cs/introspection.py:58-110 | every name is a foreign, primary or unique constraint name, and every entry has `check` and `index` False |
| `CsIntrospection.ConvertedConstraintNameQuotesVerbatim` | django_snowflake_cs/introspection.py:179-180 | a generated constraint name is wrapped in double quotes verbatim and survives `quote_name` unchanged |
| `CsIntrospection.ConvertedNameQuotesBack` | django_snowflake_cs/introspection.py:186-191 | any other name is lower-cased, and `quote_name` reverses that for a plain upper-case name |
| `CsIntrospection.DescribeFieldSpec` | django_snowflake_cs/introspection.py:151-173 | a DESCRIBE row maps to its converted name, its type, the unanchored size as `display_size`, precision and scale, `null == 'Y'`, its default, its collation, `pk == 'Y'` and its comment; extra cells are ignored |
| `CsIntrospection.TableDescriptionOk` | django_snowflake_cs/introspection.py:154-173 | the description succeeds exactly when every row does, and is the rows' infos in order |
| `CsIntrospection.GetFieldTypeOfDescription` | django_snowflake_cs/introspection.py:128-132 | a VARIANT column reads back as JSONField, and a default-size VARCHAR as TextField even with a collation |
| `CsIntrospection.PrimaryKeyColumnSpec` | django_snowflake_cs/introspection.py:112-114 | the first pk-flagged column, or None |
| `CsIntrospection.TableListSpec` | django_snowflake_cs/introspection.py:193-210 | every table in order marked `t` with the comment of cell 5, then every view marked `v` with the comment of cell 6 |
| `CsIntrospection.RelationsKeys` | django_snowflake_cs/introspection.py:116-126 | the relations are keyed by exactly the converted foreign-key columns |
| `CsIntrospection.RelationsLast` | django_snowflake_cs/introspection.py:123-126 | a column maps to the referenced column and table of its last row |
| `Introspection.DescribeFieldSpec` | django_snowflake/introspection.py:73-89 | a DESCRIBE row maps to its unconverted name, its type, the end-anchored size as `internal_size`, no `display_size`, no collation, `null == 'Y'` and `pk == 'Y'` |
| `Introspection.TableDescriptionOk` | django_snowflake/introspection.py:76-89 | the same fact as `CsIntrospection.TableDescriptionOk`, for this file's 11-cell rows and field record: the description succeeds exactly when every row does, and is the rows' infos in order |
| `Introspection.TableDescriptionErr` | django_snowflake/introspection.py:76-89 | a failing description carries the error of a failing row |
| `Introspection.GetFieldTypeOfDescription` | django_snowflake/introspection.py:50-62 | a default-size VARCHAR reads back as TextField, a NUMBER with a non-zero scale as DecimalField |
| `Introspection.PrimaryKeyColumnSpec` | django_snowflake/introspection.py:46-48 | the first pk-flagged column, or None |
| `Introspection.TableListSpec` | django_snowflake/introspection.py:91-96 | every table in order marked `t`, then every view in order marked `v` |
| `TypeParsers.GetDataType` | django_snowflake_cs/introspection.py:24-26 | the text before the first `(`, or the whole name when it has none |
| `TypeParsers.FieldSizeComplete` | django_snowflake_cs/introspection.py:12 | every string of the shape `[A-Z]+(digits)` (at the end when anchored) is matched with the value of its digits |
| `TypeParsers.FieldSizeSound` | django_snowflake_cs/introspection.py:29-32 | a size is found only in a string of that shape |
| `TypeParsers.FieldSizeAnchoredImpliesUnanchored` | django_snowflake/introspection.py:9 | whatever the end-anchored pattern matches, the unanchored one matches with the same size |
| `TypeParsers.TrailingTextSize` | django_snowflake_cs/introspection.py:12 | text after the parenthesis is accepted without the end anchor and rejected with it |
| `TypeParsers.PrecisionAndScaleComplete` | django_snowflake_cs/introspection.py:13 | every `NUMBER(p,s)` is parsed with both values |
| `TypeParsers.PrecisionAndScaleSound` | django_snowflake_cs/introspection.py:35-41 | both results are present or both absent, and present only for a string of the shape `NUMBER(p,s)` |
| `TypeParsers.GetCollationComplete` | django_snowflake_cs/introspection.py:11 | every `VARCHAR(n) COLLATE 'name'` gives back its name |
| `TypeParsers.GetCollationSound` | django_snowflake_cs/introspection.py:16-21 | a collation is found only in a string of that shape |
| `TypeParsers.GetFieldTypeKnown` | django_snowflake_cs/introspection.py:128-129 | only a type named in the reverse table is classified |
| `TypeParsers.GetFieldTypeText` | django_snowflake_cs/introspection.py:131-132 | a default-size VARCHAR is a TextField whatever its default |
| `TypeParsers.GetFieldTypeDecimal` | django_snowflake_cs/introspection.py:134-136 | a NUMBER with a scale other than 0 is a DecimalField even with an IDENTITY default |
| `TypeParsers.GetFieldTypeInteger` | django_snowflake_cs/introspection.py:134-148 | precision 5 and 10 narrow an integral NUMBER, and an IDENTITY default makes it the matching auto kind |
| `TypeParsers.GetFieldTypeAutoNeedsIdentity` | django_snowflake_cs/introspection.py:142-148 | an auto kind comes only from an IDENTITY default, unless the reverse table names one |
| `TypeParsers.GetFieldTypeOther` | django_snowflake_cs/introspection.py:128-149 | outside the VARCHAR and NUMBER rules and without IDENTITY the kind is the reverse table's |
| `FieldKinds.AutoVariantSpec` | django_snowflake_cs/introspection.py:142-148 | exactly the three integer kinds have an auto variant, the matching auto kind |
| `Functions.ConcatPairMeaning` | django_snowflake/functions.py:6-8 | the rendered CONCAT reads a NULL operand as the empty string, so it is never NULL; the extra context is forwarded |
| `Functions.ConcatWithoutCoalesceIsNull` | django_snowflake/functions.py:7 | without coalesce() a NULL operand makes CONCAT NULL |
| `Functions.StrIndexMeaning` | django_snowflake/functions.py:11-17 | the rendered POSITION computes StrIndex: the position of the second argument in the first; the extra context is forwarded |
| `Functions.StrIndexNeedsTwo` | django_snowflake/functions.py:14-16 | fewer than two source expressions raise IndexError |
| `Functions.RegistryRenderers` | django_snowflake/functions.py:20-26 | the four SHA classes use MySQL's renderer, ConcatPair and StrIndex the Snowflake ones, and nothing else is registered |
| `CsFunctions.CeilSpec` | django_snowflake_cs/functions.py:7-8 | CEIL is named whatever the operands; only a `function` in the extra context raises |
| `CsFunctions.CollateSpec` | django_snowflake_cs/functions.py:11-21 | the collation is single-quoted with its template and the rest of the context forwarded; raises exactly when the context passes `collation` or `template` again |
| `CsFunctions.CollateTemplateRenders` | django_snowflake_cs/functions.py:19 | the template renders as `<function>(<expressions>, <collation>)` |
| `CsFunctions.RandomRenders` | django_snowflake_cs/functions.py:29-31 | Random always renders the fixed UNIFORM call |
| `CsFunctions.RegistryExtends` | django_snowflake_cs/functions.py:43-52 | the registry keeps every entry of django_snowflake's and adds Ceil, Collate and Random |
| `Schema.CollateSql` | django_snowflake/schema.py:101-103 | the collation inside single quotes after ` COLLATE ` |
| `Schema.ColumnSql` | django_snowflake/schema.py:83-99 | no definition for a field without a db type; otherwise the definition with no parameters |
| `Schema.DefinitionClauses` | django_snowflake/schema.py:90-99 | the type then the collation, NOT NULL, PRIMARY KEY and UNIQUE clauses that apply, in that order |
| `Schema.DefinitionBare` | django_snowflake/schema.py:86-92 | with no clause applying the definition is the type alone |
| `Schema.DefinitionNotNull` | django_snowflake/schema.py:93-94 | NOT NULL follows the collation |
| `Schema.DefinitionPrimaryKey` | django_snowflake/schema.py:95-96 | PRIMARY KEY follows NOT NULL |
| `Schema.DefinitionUnique` | django_snowflake/schema.py:97-98 | UNIQUE comes last |
| `Schema.ExcludeNotNull` | django_snowflake/schema.py:93 | excluding NOT NULL is the same as declaring the field nullable |
| `Schema.AddFieldSequence` | django_snowflake/schema.py:29-81 | ADD COLUMN without NOT NULL first, an UPDATE binding the default exactly when it is not None, SET NOT NULL last exactly when the field is not nullable |
| `Schema.UpdateSqlBalanced` | django_snowflake/schema.py:59-70 | the UPDATE binds its one parameter |
| `Schema.SchemaEditor.AddField` | django_snowflake/schema.py:29-81 | the executed statements grow by the add-field sequence; an automatic many-to-many table is handed on |
| `Schema.SchemaEditor.AlterField` | django_snowflake/schema.py:105-131 | Django's alteration runs first, then the corrected auto-field rule of the third Findings row, with the auto kinds taken from the AUTOINCREMENT entries of the type table rather than from the empty `data_types_suffix` |
| `Schema.SchemaEditor.AddIndex` | django_snowflake/schema.py:20-21 | executes nothing |
| `Schema.SchemaEditor.RemoveIndex` | django_snowflake/schema.py:23-24 | executes nothing |
| `Schema.SchemaEditor.AlterIndexTogether` | django_snowflake/schema.py:26-27 | executes nothing |
| `Schema.AutoFieldRuleAsWritten` | django_snowflake/schema.py:111-131 | as written the rule never fires: no alteration is rejected and no default dropped |
| `Schema.AutoFieldNamesMatchTypeTable` | django_snowflake/base.py:24-46 | the auto kinds are exactly the kinds whose column type is AUTOINCREMENT |
| `Schema.AutoFieldRuleSpec` | django_snowflake/schema.py:114-131 | changing to an auto kind is rejected naming the field and type; changing away from one drops the column default; nothing else |
| `Schema.QuoteValueSpec` | django_snowflake/schema.py:133-135 | a string is returned verbatim, an integer as its decimal digits |
| `Pool.SnowflakeConnectionPool.constructor` | django_snowflake_cs/pool.py:6-9 | an empty queue of `maxsize` |
| `Pool.SnowflakeConnectionPool.Get` | django_snowflake_cs/pool.py:37-48 | the oldest idle connection is removed and returned without creating one; on an empty queue exactly one fresh connection is created; either way it is tagged with the pool |
| `Pool.SnowflakeConnectionPool.Put` | django_snowflake_cs/pool.py:50-54 | appended when not full, otherwise closed with the queue unchanged; the queue never exceeds `maxsize` |
| `Pool.PutsIntoEmpty` | django_snowflake_cs/pool.py:50-54 | putting into an empty bounded pool keeps the first `maxsize` connections in order and closes all later ones |
| `Pool.PutsUnbounded` | django_snowflake_cs/pool.py:6-8 | an unbounded pool keeps every connection put into it |
| `Pool.SnowflakeConnectionPool.Close` | django_snowflake_cs/pool.py:61-70 | the queue is drained, every idle connection is closed unless its close raises, and a raising close does not stop the drain |
| `Pool.SnowflakeConnectionPool.ConnectionScope` | django_snowflake_cs/pool.py:11-22 | the leased connection is closed if the block raised, the exception does not propagate, and the connection is always put back, even closed |
| `Pool.SnowflakeConnectionPool.CursorScope` | django_snowflake_cs/pool.py:25-35 | two fresh cursors are made, the second is yielded, only the first is closed on error, and the connection stays open and goes back to the queue |
| `Pool.Cursor.Close` | django_snowflake_cs/pool.py:33 | a cursor close raises when the driver fails and closes the cursor otherwise |
| `Pool.Connection.Close` | django_snowflake_cs/pool.py:18 | a connection close raises when the driver fails and closes the connection otherwise |

## Left out

- Database and driver I/O: cursor execution, `Database.connect`, `create_connection`, `is_usable`, `last_insert_id` and `last_executed_query`. Cursor results are input row sequences. Creating a connection never fails in the model.
- `creation.py`, `features.py`, `aggregates.py`, `expressions.py`, `django_snowflake_cs/utils.py` and `setup.py`: these are capability constants, one-line delegations to Django and packaging.
- The `register_*` attribute assignments as code. The function registries are modelled as constant tables.
- `runshell` and its signal handling.
- The value converters (`convert_datetimefield_value`, `convert_durationfield_value`, `convert_uuidfield_value`), `get_db_converters` and `explain_query_prefix`. They depend on the time-zone, Decimal and uuid libraries.
- Pool concurrency: the gevent queue and its scheduling are modelled as a sequential queue. `maxsize=None` or `0` is modelled as `maxsize <= 0`, meaning no bound.
- Django's own code: `Func.as_sql` is modelled by a small expression language. `assemble_as_sql`, `prepare_value`/`pre_save_val`, `on_conflict_suffix_sql`, `return_insert_columns` and `pk_default_value` are inputs of the compiler. `_get_limit_offset_params` is represented by its results. The base `get_field_type` is a lookup in a reverse table passed as a parameter. `compile_json_path_final_key` is a function parameter.
- The ordinary Django alteration inside `_alter_field` is an input list of statements.
- A DatabaseDefault value always compiles to the `DEFAULT` keyword with no parameters.
- Python runtime details:
  - Regular expressions are modelled only for the patterns the code uses, with ASCII classes (`[A-Z]`, `\d`, `\w`).
  - `str.upper` and `str.lower` are ASCII only.
  - Python `%` formatting is modelled only for `%s` and `%%`.
  - `int()` parsing of JSON path segments is modelled as an `Index`/`Key` datatype.
- Pattern escaping: there is no ESCAPE clause, and `pattern_esc` is the identity. Nothing beyond that is modelled.
- `Schema.CreateIndexSql`, `Schema.ModelIndexesSql`, `Schema.FieldIndexesSql` and `Schema.SkipDefaultOnAlter` are modelled as constants and carry no separate property.
- `Lookups.HasKeyLookup`: with a logical operator it renders the corrected condition, not the re-interpolated one of lookups.py:62-63. The two differ when the lhs path holds a `%`, and the as-written one is `Lookups.HasKeySqlAsWritten`.
- `Schema.SchemaEditor.AlterField`: it applies the auto-field rule with the AUTOINCREMENT kinds of the type table. schema.py:111 reads the empty `data_types_suffix`, under which the rule never fires; that behaviour is `Schema.AutoFieldRuleAsWritten`.
- `Lookups.EscapeQuotesRoundTrip`: the path syntax escapes `"` as `\"` but leaves `\` alone, as lookups.py:15 does. A reader that treats `\` as an escape character would not read back a key ending in `\` (key `a\` renders `"a\"`, whose closing quote is escaped). The model states only that escaping is invertible and injective; the database's reading of backslashes is not modelled.
- `Lookups.KeyTextTransform` and `Lookups.KeyTransform`: their shape (`lhs + path + '::VARCHAR'`, `TO_JSON(lhs + path)`) is their definition; the property proved about them is `Lookups.KeyTransformsBalanced`.

## Findings

| source | as written | input that shows it | evidently intended | confidence | as-written member | corrected member |
|---|---|---|---|---|---|---|
| django_snowflake/compiler.py:28-33 | `$i` is numbered over every original field, including fields dropped later because all their values are DEFAULT | a field `created` with a db default and only DEFAULT values, then a JSONField `data`: `INSERT ... (data) SELECT $1, parse_json($2) FROM VALUES (%s)` refers to a second column that does not exist | number the SELECT list over the kept fields: `SELECT parse_json($1) FROM` | not executed | `Compiler.AsWrittenSelectMisnumbered` | `Compiler.SelectWrapperAligned` |
| django_snowflake/lookups.py:62-63 | the lhs path, already `%%`-escaped, is put into a template that is then `%`-interpolated again, which turns `%%` back into `%` | `has_keys` (` AND `) or `has_any_keys` (` OR `) on a KeyTransform through the key `a%b`: the SQL holds a bare `%`, which the driver reads as a placeholder | substitute the key path without re-interpolating the lhs path | not executed | `Lookups.AsWrittenLogicalBranchDiffers` | `Lookups.HasKeySingleKeyParenthesized` |
| django_snowflake/schema.py:111 | the auto kinds are taken from `data_types_suffix`, which this backend leaves empty | altering an IntegerField into an AutoField is not rejected, and altering an AutoField into an IntegerField does not drop the default | take the auto kinds from the AUTOINCREMENT entries of `data_types` | not executed | `Schema.AutoFieldRuleAsWritten` | `Schema.AutoFieldRuleSpec` |
