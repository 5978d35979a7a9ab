# Model-derived schema state of bun's `migrate/sqlschema`

This project models, in Dafny, how bun's migration tooling turns the tables an
application declares into a canonical schema `State` that can be diffed
against the live database (`SchemaInspector.Inspect` in
`migrate/sqlschema/inspector.go`), together with the two normalisers it
applies to every declared column:

- `parseLen` splits a column type such as `varchar(255)` at its first `(` into
  a base type and an integer length, using `strconv.Atoi` on the text between
  that `(` and the last character;
- `exprToLower` lower-cases a default expression unless it is a string
  literal, i.e. starts and ends with `'`.

Modules, leaf first:

- `Wrappers` — `Option` and `Result`.
- `GoStrings` — `strings.Index`, `HasPrefix`, `HasSuffix` and `ToLower`
  (ASCII).
- `StrConv` — `strconv.Atoi` (optional sign, then decimal digits read by
  `DecimalValue`) and its inverse `Itoa` (`FormatInt`), with the round trip
  `Atoi(Itoa(n)) == n`.
- `SqlSchema` — the state datatypes (`Column`, `Table`, `C`, `FK`, `State`),
  `ParseLen` and `ExprToLower`, and their properties. `parseLen`'s panic (the
  slice `typ[paren+1 : len(typ)-1]` when the first `(` is the last character)
  is the explicit outcome `SlicePanic`.
- `ModelSchema` — the declared metadata `Inspect` reads (tables, fields,
  relations and relation kinds), given as plain values.
- `SchemaInspector` — `Inspect` as an imperative method with the source's
  loops (the loop over a table's fields is `CollectColumns`, the loop over its
  relations `CollectForeignKeys`, and the two `append` loops `CollectNames`),
  proved equal to `Inspected`, a fold over the declared tables in input
  order; and the lemmas that say what that fold produces: one table per
  declared table, one column per field name, one foreign key per relation
  that needs one, and on a bad field type the error for the first such type.

Behaviour of the code worth knowing:

- The length is read up to the last character of the type, whatever it is;
  no closing `)` is looked for (`varchar(255` gives `("varchar", 25)`, see
  `SqlSchema.ParseLenDropsLastChar`).
- `Atoi` accepts a sign, so a length can be negative (`varchar(-5)` gives
  `-5`).
- On a parse error `Inspect` returns the state built so far together with the
  error (Go's `return state, fmt.Errorf(...)`); `SchemaInspector.InspectStops`
  states exactly which partial state that is.
- A field whose type has its first `(` as its last character makes `Inspect`
  panic, provided no earlier field's type fails (`SqlSchema.ParseLenPanics`,
  `SchemaInspector.InspectOutcome`); a later `(` in last place only makes the
  text handed to `Atoi` end before it (`a(b(` is an error about `b`).

## Model

| member | source | states |
|---|---|---|
| `GoStrings.Index` | migrate/sqlschema/inspector.go:112 | the result is -1 exactly when the character does not occur; otherwise it is a position holding the character with no occurrence before it |
| `GoStrings.ToLower` | migrate/sqlschema/inspector.go:68 | the result has the input's length, no upper-case letter is left, and nothing else changes: every other character stays in place and each capital becomes its lower-case letter |
| `GoStrings.LowerCharKeepsNonLetters` | migrate/sqlschema/inspector.go:68 | a character lower-cases to a non-capital `d` exactly when it is `d` or the capital of `d` |
| `GoStrings.ToLowerIdempotent` | migrate/sqlschema/inspector.go:68 | lower-casing twice equals lower-casing once |
| `GoStrings.ToLowerKeepsChar` | migrate/sqlschema/inspector.go:68 | a non-letter below `a`, such as `(`, occurs in the lower-cased text exactly when it occurs in the text |
| `StrConv.Atoi` | migrate/sqlschema/inspector.go:116 | definition of `strconv.Atoi`: optional sign, then one or more digits, else a syntax error carrying the input; its properties are `AtoiFormatInt`, `AtoiFormatNat`, `AtoiPlusSign`, `AtoiMinusSign`, `AtoiRejects` and `AtoiRejectsNoDigits` |
| `StrConv.DecimalValueDefined` | migrate/sqlschema/inspector.go:116 | a text has a decimal value if and only if it is one or more digits |
| `StrConv.DecimalValueOfFormatNat` | migrate/sqlschema/inspector.go:116 | the digits written for a natural number read back as that number |
| `StrConv.AtoiFormatInt` | migrate/sqlschema/inspector.go:116 | `Atoi` reads back every integer `Itoa` writes, negative ones included |
| `StrConv.AtoiFormatNat` | migrate/sqlschema/inspector.go:116 | unsigned digits written for a natural number parse back to it |
| `StrConv.AtoiMinusSign` | migrate/sqlschema/inspector.go:116 | a leading `-` negates the value of the digits after it |
| `StrConv.AtoiPlusSign` | migrate/sqlschema/inspector.go:116 | a leading `+` is accepted and does not change the value |
| `StrConv.AtoiRejects` | migrate/sqlschema/inspector.go:116-119 | a non-digit after the optional sign makes `Atoi` fail with a syntax error carrying its input |
| `StrConv.AtoiRejectsNoDigits` | migrate/sqlschema/inspector.go:116-119 | the empty text and a lone sign are syntax errors |
| `SqlSchema.ParseLen` | migrate/sqlschema/inspector.go:111-121 | definition of `parseLen`, with the slice panic as `SlicePanic`; its properties are `ParseLenWithoutParen`, `ParseLenDropsLastChar`, `ParseLenOfDeclaredLength`, `ParseLenOfDigits`, `ParseLenRejects`, `ParseLenPanics`, `ParseLenBase` and `NormalisedTypeIsFixedPoint` |
| `SqlSchema.ParseLenWithoutParen` | migrate/sqlschema/inspector.go:112-115 | a type without `(` comes back unchanged with length 0 and no error |
| `SqlSchema.IndexAfterBase` | migrate/sqlschema/inspector.go:112 | in `base(rest` with no `(` in `base`, the first `(` is at the length of `base` |
| `SqlSchema.ParseLenDropsLastChar` | migrate/sqlschema/inspector.go:111-121 | for `base(arg` plus any last character, with no `(` in `base`: the result is `(base, n)` when `Atoi(arg)` is `n`, and otherwise the whole type, length 0 and the `Atoi` error; the last character is never inspected (for ASCII text, where a character is a byte) |
| `SqlSchema.ParseLenOfDeclaredLength` | migrate/sqlschema/inspector.go:112-120 | `base(N)` for every integer `N`, with no `(` in `base`, parses back to `(base, N)` without error |
| `SqlSchema.ParseLenOfDigits` | migrate/sqlschema/inspector.go:112-120 | `base(D)` for a non-empty digit string `D` gives `base` and the value of `D` |
| `SqlSchema.ParseLenRejects` | migrate/sqlschema/inspector.go:116-119 | when the text inside is not an integer, the original type, length 0 and the syntax error come back |
| `SqlSchema.ParseLenPanics` | migrate/sqlschema/inspector.go:112-116 | the slice panics if and only if the first `(` is the last character |
| `SqlSchema.ParseLenBase` | migrate/sqlschema/inspector.go:112-120 | a cleanly split base is a prefix of the type and holds no `(`; it is the whole type exactly when the type holds no `(` |
| `SqlSchema.NormalisedTypeIsFixedPoint` | migrate/sqlschema/inspector.go:63-68 | the lower-cased base type parses again to itself with length 0 |
| `SqlSchema.ParseLenExampleLength` | migrate/sqlschema/inspector.go:111-121 | `numeric(10)` gives `("numeric", 10)` |
| `SqlSchema.ParseLenExampleNegative` | migrate/sqlschema/inspector.go:111-121 | `varchar(-5)` gives `("varchar", -5)` |
| `SqlSchema.ParseLenExampleWord` | migrate/sqlschema/inspector.go:116-119 | `numeric(ten)` is an error with the type unchanged |
| `SqlSchema.ParseLenExampleEmpty` | migrate/sqlschema/inspector.go:116-119 | `varchar()` is an error with the type unchanged |
| `SqlSchema.ParseLenExampleTwoArguments` | migrate/sqlschema/inspector.go:116-119 | `decimal(10,2)` is an error: only a single length is understood |
| `SqlSchema.ParseLenExampleUnclosed` | migrate/sqlschema/inspector.go:116-120 | `varchar(255` gives `("varchar", 25)`: the last character is dropped unseen |
| `SqlSchema.ParseLenExampleOpenParenLast` | migrate/sqlschema/inspector.go:112-116 | `varchar(` panics |
| `SqlSchema.ParseLenExampleLaterParenLast` | migrate/sqlschema/inspector.go:112-119 | `a(b(` does not panic: its first `(` is not last, so `Atoi` gets `b` and the type comes back with the syntax error |
| `SqlSchema.ExprToLower` | migrate/sqlschema/inspector.go:126-131 | definition of `exprToLower`; its properties are `ExprToLowerKeepsLiteral`, `ExprToLowerLowersOthers` and `ExprToLowerIdempotent` |
| `SqlSchema.ExprToLowerKeepsLiteral` | migrate/sqlschema/inspector.go:127-129 | a default that starts and ends with `'` is kept verbatim, case included |
| `SqlSchema.IsQuotedAt` | migrate/sqlschema/inspector.go:127 | the prefix and suffix test holds exactly when the text is non-empty and starts and ends with `'` |
| `SqlSchema.ExprToLowerLowersOthers` | migrate/sqlschema/inspector.go:130 | any other default is lower-cased character by character and has no upper-case letter left |
| `SqlSchema.ExprToLowerIdempotent` | migrate/sqlschema/inspector.go:126-131 | normalising a default twice equals normalising it once |
| `SqlSchema.ExprToLowerExampleKeyword` | migrate/sqlschema/inspector.go:130 | `CURRENT_TIMESTAMP` becomes `current_timestamp` |
| `SqlSchema.ExprToLowerExampleLiterals` | migrate/sqlschema/inspector.go:127-129 | `'Active'`, `'USER@x.com'` and the one-character `'` stay unchanged |
| `SchemaInspector.ColumnOf` | migrate/sqlschema/inspector.go:67-75 | a column built from a field is normalised: its type has no upper-case letter and re-parses to itself with length 0, and its default is a fixed point of `exprToLower` |
| `SchemaInspector.BuildColumns` | migrate/sqlschema/inspector.go:60-76 | the field loop as a fold from a given map; its properties are `BuildColumnsOutcome`, `BuildColumnsParses`, `BuildColumnsKeys`, `BuildColumnsValues` and `BuildColumnsStep`, and `CollectColumns` is proved equal to it |
| `SchemaInspector.ForeignKeyOf` | migrate/sqlschema/inspector.go:93-105 | the key of one relation: the table's columns named by the base fields, in order, to the join table's columns named by the join fields, in order; used by `AddForeignKeysAdds` and `InspectForeignKeys` |
| `SchemaInspector.AddForeignKeys` | migrate/sqlschema/inspector.go:85-106 | the relation loop as a fold from a given key map; its properties are `AddForeignKeysAdds` and `InspectForeignKeys`, and `CollectForeignKeys` is proved equal to it |
| `SchemaInspector.InspectFrom` | migrate/sqlschema/inspector.go:59-107 | the table loop as a fold from a given state, stopping at the first bad field type with the state so far; its properties are `InspectFromOutcome`, `InspectFromStops`, `InspectFromTables`, `InspectFromForeignKeys` and `InspectFromStep` |
| `SchemaInspector.Inspected` | migrate/sqlschema/inspector.go:55-109 | `InspectFrom` from the empty state; `Inspect` is proved equal to it, and its properties are `InspectOutcome`, `InspectStops`, `InspectTables`, `InspectForeignKeys` and `InspectExample` |
| `SchemaInspector.Names` | migrate/sqlschema/inspector.go:93-99 | the column names have the fields' count and order, position by position |
| `SchemaInspector.CollectNames` | migrate/sqlschema/inspector.go:93-99 | the append loop yields exactly `Names` of the fields |
| `SchemaInspector.CollectColumns` | migrate/sqlschema/inspector.go:60-76 | the field loop returns exactly `BuildColumns` of the fields from an empty map: the columns, the wrapped error of the first bad type, or the panic |
| `SchemaInspector.CollectForeignKeys` | migrate/sqlschema/inspector.go:85-106 | the relation loop leaves exactly `AddForeignKeys` of the table's relations over the keys it started with |
| `SchemaInspector.Inspect` | migrate/sqlschema/inspector.go:55-109 | the nested loops return exactly `Inspected(tables)`, including the early error return and the panic |
| `SchemaInspector.BuildColumnsOutcome` | migrate/sqlschema/inspector.go:61-66 | the field loop succeeds when every field type parses; otherwise the first bad type decides: a panic, or an error naming that type and carrying the `Atoi` error |
| `SchemaInspector.FirstFailure` | migrate/sqlschema/inspector.go:61-66 | the position found is the first split that is not clean; none is found exactly when every split is clean |
| `SchemaInspector.FirstFailureConcat` | migrate/sqlschema/inspector.go:59-66 | the first failure in two runs of fields one after the other is the first run's, or else the second run's shifted past the first |
| `SchemaInspector.InspectFromOutcome` | migrate/sqlschema/inspector.go:59-66 | the same for the table loop continuing from any state, over all field types in table then field order |
| `SchemaInspector.InspectOutcome` | migrate/sqlschema/inspector.go:59-66 | `Inspect` returns no error if and only if every declared field type parses; otherwise the first bad type in table then field order gives the panic or the error quoting it |
| `SchemaInspector.InspectFromStops` | migrate/sqlschema/inspector.go:63-66 | on an error from any starting state, the returned state is what a successful run over the tables before the failing one produces |
| `SchemaInspector.InspectStops` | migrate/sqlschema/inspector.go:63-66 | on an error `Inspect` stops: it returns the state of the tables before the failing one, and the failing table's fields give that error |
| `SchemaInspector.BuildColumnsParses` | migrate/sqlschema/inspector.go:61-66 | when the field loop succeeds, every field type parses cleanly |
| `SchemaInspector.BuildColumnsKeys` | migrate/sqlschema/inspector.go:60-76 | a successful field loop adds exactly the field names to the keys and leaves the column under every other key untouched |
| `SchemaInspector.BuildColumnsValues` | migrate/sqlschema/inspector.go:67-75 | after a successful field loop, the column under each field name is the one built from the last field with that name |
| `SchemaInspector.BuildColumnsValueAt` | migrate/sqlschema/inspector.go:67-75 | the same for one field: its type parses, and if no later field shares its name, its column is the one stored |
| `SchemaInspector.BuildColumnsStep` | migrate/sqlschema/inspector.go:61-75 | one field whose type parses is assigned under its name and the loop goes on with the rest |
| `SchemaInspector.InspectFromTables` | migrate/sqlschema/inspector.go:59-83 | a successful table loop appends one table per declared table, in order, after the tables it started with |
| `SchemaInspector.InspectTables` | migrate/sqlschema/inspector.go:59-83 | on success there is one table per declared table, in input order, with schema, name and model handle copied and exactly one column per field name built from that field |
| `SchemaInspector.AddForeignKeysAdds` | migrate/sqlschema/inspector.go:85-106 | the relation loop adds an empty-named key for every relation that is neither many-to-many nor has-many, keeps the earlier keys, and adds nothing else |
| `SchemaInspector.InspectFromForeignKeys` | migrate/sqlschema/inspector.go:85-106 | the same over the table loop, from any starting state |
| `SchemaInspector.InspectForeignKeys` | migrate/sqlschema/inspector.go:85-106 | on success every relation that is neither many-to-many nor has-many has its foreign key (base columns in order to the join table's columns in order), every key comes from such a relation, and every name is empty |
| `SchemaInspector.InspectTwoTables` | migrate/sqlschema/inspector.go:59-107 | two declared tables, the first without relations, give their two tables in order and the second's foreign keys |
| `SchemaInspector.InspectFromStep` | migrate/sqlschema/inspector.go:59-106 | one declared table whose fields all parse appends its table, adds its foreign keys and the loop goes on with the rest |
| `SchemaInspector.ExampleIdColumn` | migrate/sqlschema/inspector.go:67-75 | `id int`, primary key, auto-increment, not null, gives the column `int`, length 0, not nullable |
| `SchemaInspector.ExampleEmailColumn` | migrate/sqlschema/inspector.go:67-75 | `email TEXT NOT NULL DEFAULT 'USER@x.com'` gives type `text` and keeps the quoted default as written |
| `SchemaInspector.ExampleAuthorColumn` | migrate/sqlschema/inspector.go:67-75 | `author_id INT` gives type `int` |
| `SchemaInspector.ExampleUsersTable` | migrate/sqlschema/inspector.go:60-83 | the example `users` table gets its two columns keyed by name |
| `SchemaInspector.ExamplePostsTable` | migrate/sqlschema/inspector.go:60-83 | the example `posts` table gets its one column |
| `SchemaInspector.ExampleForeignKeys` | migrate/sqlschema/inspector.go:85-106 | `posts` gets the key from `author_id` to `users.id` for its belongs-to relation and nothing for its has-many relation |
| `SchemaInspector.InspectExample` | migrate/sqlschema/inspector.go:55-109 | `users(id int, email TEXT default 'USER@x.com')` and `posts(author_id INT)` belonging to `users` and having many `comments` give both tables in order with lower-cased types, `email`'s quoted default kept as written, not nullable, and the single foreign key of `posts` |

## Left out

- `NewInspector`, the `InspectorDialect` and `Inspector` interfaces and `EquivalentType` (inspector.go:13-39): a runtime type assertion on a database dialect, and a comparison with no implementation in this file; the equivalence of columns across dialects is therefore not modelled.
- `context.Context`, `*bun.DB` and the live-database inspector: I/O and an external collaborator.
- `schema.Tables.All()` and the registry behind it: the declared tables are an input sequence.
- bun's `schema` package is not part of this model: its tables, fields and relations are datatypes holding only what `Inspect` reads, and its relation kinds are listed in the package's declaration order.
- `C(...)` and the `Columns` type of the same package are not part of this model: `C` is a datatype constructor holding schema, table and the ordered column names.
- `Table.Model` (`t.ZeroIface`) is an opaque type parameter that is copied and never inspected.
- Type strings and defaults are taken as ASCII, one character per element: Go indexes and slices bytes (`strings.Index`, `len(typ)-1` at inspector.go:112,116), so for a multi-byte last character Go drops only its last byte and hands the rest to `Atoi` (`varchar(25é` is an error there), which the model does not reproduce.
- `GoStrings.ToLower`: lower-cases ASCII only; Unicode case mapping of `strings.ToLower` is not modelled.
- `StrConv.Atoi`: integers are unbounded, so the range error Go reports for values outside 64 bits is not modelled; only the syntax error is.
- The exact text of the wrapped error (`parse length in %q: %w`): the error is a datatype carrying the type string and the `Atoi` error.
