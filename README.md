# Database explorer: ER-diagram synthesis

This project is a Dafny model of the core of `db_explorer.py`, a small interactive
explorer for MySQL and PostgreSQL databases. The model covers:

- **`generate_er_diagram`**. It turns the catalog (table list, columns, primary
  keys, foreign keys) into a Mermaid or PlantUML entity-relationship diagram.
  The text has four parts, in order:
  - an opening code fence;
  - one entity block per table;
  - one relationship line per inferred edge, grouped by table;
  - a closing fence.
- **The row post-processing** in `list_tables`, `describe_table` and
  `query_table`.
- **The pure decisions in `main`**: the default port, the format chosen from the
  menu answer, the file extension and the default file name.

The database is not modelled. Each table the generator visits is given as a
snapshot (`Catalog.Table`): its name, its `(name, type)` columns, its primary-key
list, and what the foreign-key query did. The query either returned rows
(`Declared`, possibly empty) or raised (`QueryFailed`).

The generator has two forms:

- `ErDiagram.DiagramText` states the text as a function;
- `ErDiagram.GenerateErDiagram` builds it imperatively, like the source, by
  appending to one accumulator in nested loops. Each loop level is a method of
  its own, and it is proved to produce `DiagramText`.

`ErProperties` proves what the text means. `FallbackBinding` models the
naming-convention fallback as it is actually written (see Findings).

Modules, one per file:

- `wrappers.dfy`: `Option` and `Result`.
- `catalog.dfy`: rows, tables, and the post-processing of fetched rows.
- `er_diagram.dfy`: the text, the relationship rule and the generator.
- `er_properties.dfy`: properties of the text.
- `fallback_binding.dfy`: the fallback as written.
- `cli.dfy`: `main`'s pure rules.

Notes on the modelling:

- **The engine does not appear.** Once rows are fetched, the MySQL and PostgreSQL
  branches render the same text. The exception is the `bytes` decode, and bytes
  are taken as already-decoded text.
- **An empty foreign-key result gives no fallback.** A schema without declared keys
  might be expected to fall back to the naming convention. In the code, the fallback runs only when the foreign-key query raises. A successful
  but empty result gives no lines. The model follows the code
  (`ErProperties.DeclaredTier`, `ErProperties.NoRelationshipsWithoutDeclaredKeys`).
- **The convention only strips `_id`.** It matches the remaining stem exactly
  against the table list, so `user_id` never refers to `users`.
- **Relationship lines are never deduplicated.** There is one line per row the
  foreign-key query returns: two for a two-column key in MySQL, whose
  `KEY_COLUMN_USAGE` has one row per key column, and four in PostgreSQL, whose
  query pairs every key column with every referenced column.

## Model

| member | source | states |
|---|---|---|
| Catalog.FirstFields | db_explorer.py:41 | one name per row, in row order: element i is field 0 of row i |
| Catalog.ListTables | db_explorer.py:31-43 | one table name per catalog row, in row order: element i is row i's first field; a name is listed iff some row's first field is that name |
| Catalog.MySqlPrimaryKeys | db_explorer.py:52 | a name is in the MySQL key list iff some DESCRIBE row with that name has key field exactly `PRI`; never longer than the rows |
| Catalog.MySqlPrimaryKeysAppend | db_explorer.py:52 | the key list keeps row order: the list of a concatenation is the concatenation of the lists |
| Catalog.ColumnNames | db_explorer.py:78-82 | no description gives no names; otherwise one name per description entry, entry i's field 0 |
| Catalog.MySqlTable | db_explorer.py:47-52 | a described MySQL table: column k is row k's (name, type), and its keys are the `PRI` rows' names |
| ErDiagram.Sanitize | db_explorer.py:107 | same length, no comma left, every comma becomes `_`, every other character is kept |
| ErDiagram.ConventionTarget | db_explorer.py:143-147 | an inferred target is a listed table and the column name is exactly that table + `_id` |
| ErDiagram.FallbackTargets | db_explorer.py:142-148 | the fallback infers no more tables than there are columns, and only listed tables; with `ErProperties.FallbackTargetsAppend` and `FallbackBinding.ConventionStep`, at most one per column |
| ErDiagram.AppendEntityBlock | db_explorer.py:96-118 | appends the table's header line, its column lines and its footer line, each newline-terminated, to the accumulator |
| ErDiagram.AppendRelations | db_explorer.py:121-176 | appends one line per declared foreign-key row when the query succeeded, or the convention's lines when it raised |
| ErDiagram.AppendEntityBlocks | db_explorer.py:96-118 | the first pass appends every table's entity block in table-list order |
| ErDiagram.AppendAllRelations | db_explorer.py:121-176 | the second pass appends every table's relationship lines in table-list order |
| ErDiagram.GenerateErDiagram | db_explorer.py:87-269 | the accumulated text equals the opening frame, the body lines (all entity blocks, then all relationship lines), and the closing frame |
| ErProperties.EntityBlockShape | db_explorer.py:96-118 | a table with N columns gets N+2 lines: the header, then column k's line at position k+1, then the footer |
| ErProperties.SanitizeIdempotent | db_explorer.py:107 | sanitising twice equals sanitising once; a type is unchanged iff it has no comma |
| ErProperties.SanitizeDecimal | db_explorer.py:107 | `decimal(10,2)` is rendered as `decimal(10_2)` |
| ErProperties.ColumnLineCommaOnlyFromName | db_explorer.py:106-110 | a column line contains a comma only if the column name does |
| ErProperties.PkMarkerIff | db_explorer.py:108-110 | a column line carries the key marker (Mermaid ` PK` suffix, PlantUML `*` prefix) iff the column name is in the primary-key list |
| ErProperties.MermaidColumnNamedPk | db_explorer.py:109-110 | a non-key column named `PK` produces a line that ends in ` PK`, so the marker alone cannot tell it from a key |
| ErProperties.MySqlKeyMarkers | db_explorer.py:52 | for names that cannot fake the marker and distinct column names, column k's line is marked iff its DESCRIBE row is flagged `PRI` |
| ErProperties.PkMarkerCount | db_explorer.py:108-110 | for names that cannot fake the marker, an entity block carries as many markers as the table has columns named in the key list |
| ErProperties.PkMarkersMatchDeclaredKeys | db_explorer.py:108-110 | for names that cannot fake the marker, with distinct column names and K distinct keys that all name columns, the block carries exactly K markers |
| ErProperties.DeclaredTier | db_explorer.py:136-139 | a successful query gives exactly one line per returned row, in order, whatever the columns and the table list; an empty result gives none |
| ErProperties.FallbackTier | db_explorer.py:140-148 | a failed query leaves the decision to the convention over the columns, and the key list plays no part |
| ErProperties.ConventionTargetIff | db_explorer.py:144-147 | a column names a target iff the target is listed and the column name is exactly target + `_id` |
| ErProperties.NoPluralisation | db_explorer.py:145-147 | `user_id` refers to `user` when `user` is listed, and to nothing when only `users` is |
| ErProperties.FallbackTargetsAppend | db_explorer.py:143-148 | the fallback scans columns in order: its result on a concatenation is the concatenation of its results |
| ErProperties.FallbackTargetsMembership | db_explorer.py:143-148 | a table is inferred iff it is listed and some column is named it + `_id` |
| ErProperties.DiagramFraming | db_explorer.py:93-178 | the text starts with the opening frame, ends with the closing fence and no final newline, and holds the terminated body lines in between |
| ErProperties.EntityBlockInPlace | db_explorer.py:96-118 | table k's entity block appears whole, right after the blocks of the tables before it, so blocks follow table order |
| ErProperties.RelationGroupInPlace | db_explorer.py:121-176 | table k's relationship lines come after all entity blocks and after the lines of the tables before it |
| ErProperties.EntityLineCount | db_explorer.py:96-118 | the entity part has two framing lines per table plus one line per column |
| ErProperties.DeclaredRelationCount | db_explorer.py:136-139 | when every query succeeds, there is exactly one relationship line per returned row, with none dropped or merged |
| ErProperties.NoRelationshipsWithoutDeclaredKeys | db_explorer.py:136-148 | for users/orders, an empty successful query gives no edges; under the intended per-column fallback a failed query gives none either, because `user` is not `users` (the code as written raises there) |
| ErProperties.DeclaredKeyExample | db_explorer.py:136-139 | a declared `orders.user_id -> users` key gives exactly one line, the Mermaid edge from `orders` to `users` |
| FallbackBinding.ScanAsWritten | db_explorer.py:143-148 | the loop over any bound value, as written: when it does not raise, it yields only listed tables, and no more tables than items |
| FallbackBinding.FallbackAsWritten | db_explorer.py:142-148 | the fallback as written, looping over the whole `describe_table` pair, never succeeds; `AsWrittenRaises` names the exception |
| FallbackBinding.AsWrittenRaises | db_explorer.py:142-145 | the fallback as written raises on every table: IndexError if it has no columns, AttributeError otherwise |
| FallbackBinding.UnpackedScanMatchesConvention | db_explorer.py:142-148 | the same loop over the unpacked column rows yields exactly the convention's targets, in column order |
| FallbackBinding.OrdersUserExample | db_explorer.py:140-148 | for `orders(id, user_id)` with `user` listed, the code as written raises, where the intended rule infers `user` |
| Cli.EffectivePort | db_explorer.py:284-285 | a given non-zero port is kept; a missing port or port 0 becomes 3306 for `mysql` and 5432 otherwise |
| Cli.FormatOfChoice | db_explorer.py:334 | Mermaid iff the answer is exactly `1`, and PlantUML for every other answer |
| Cli.DefaultExtension | db_explorer.py:343 | `.md` iff Mermaid, `.puml` iff PlantUML |
| Cli.OutputFilename | db_explorer.py:344 | a typed name is used as is; an empty answer gives `er_diagram` followed by the default extension |

## Left out

- `connect_to_db`, the SQL statements, `execute`, `fetchall` and `close`: database I/O. Their results are the parameters of the model.
- The PostgreSQL primary-key query (lines 61-67): the rows are a parameter. Their post-processing (line 67) is `Catalog.FirstFields`.
- `bytes.decode` (lines 104-105): every fetched value is taken as text already.
- `str(type_data)` of non-string values: column types are taken as strings.
- A PostgreSQL transaction left aborted by a failed foreign-key query, which would make the fallback's own query fail too: driver state.
- The interactive menu, `input`, `print`, `tabulate`, the `int(limit)` conversion in `main` (lines 320-322), and writing the file: console and file I/O.
- Argument parsing by `argparse` (`required`, `choices`): `Cli.EffectivePort` takes the parsed values.
- Exceptions from `list_tables` (line 89) and `describe_table` (lines 98 and 186), which end `generate_er_diagram`: the catalog snapshot assumes both calls succeed, and only the foreign-key query may fail.
- `query_table`'s data rows: they are passed through unchanged, so only the column-name rule is modelled.
- ErProperties.PkMarkerIff, ErProperties.MySqlKeyMarkers, ErProperties.PkMarkerCount, ErProperties.PkMarkersMatchDeclaredKeys: each requires that the column names cannot fake the marker. A Mermaid column named `PK`, or a PlantUML name starting with `*`, looks marked without being a key (`ErProperties.MermaidColumnNamedPk`).
- ErDiagram.GenerateErDiagram, ErDiagram.AppendAllRelations, ErDiagram.AppendRelations, ErDiagram.FallbackTargets: they model the intended per-column fallback, not the code as written, which raises (see Findings). The as-written code is `FallbackBinding.FallbackAsWritten`.

## Findings

| source | as written | input that shows it | evidently intended | confidence | as-written member | corrected member |
|---|---|---|---|---|---|---|
| db_explorer.py:142-148 (also 170-176, 230-236, 258-264) | `columns = describe_table(...)` binds the pair (columns, primary_keys), so `column[0]` is a row tuple and `.endswith` raises; the error escapes `generate_er_diagram` | table `orders(id, user_id)` and table `user`, with the foreign-key query raising | unpack the pair, as lines 98 and 186 do, and infer `orders -> user` from `user_id` | high; not executed | FallbackBinding.AsWrittenRaises | FallbackBinding.UnpackedScanMatchesConvention |
