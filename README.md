# keepitsql statement assembly in Dafny

keepitsql turns a dataframe's ordered column names and a few arguments into
SQL text. It builds a parameterised INSERT, an INSERT .. SELECT, a MERGE, or an
INSERT .. ON CONFLICT, and it chooses between the last two by a DBMS
strategy lookup. Around these builders sit several small pieces:

- table-name formatting (schema prefix, MSSQL `#`/`##` temp-table markers);
- the list-mode column selection;
- the dialect lookup for catalog queries and the auto-increment rules;
- DDL text helpers (foreign-key `ALTER TABLE` lines, constraint names,
  qualified names, the PRIMARY KEY clause);
- the SELECT script text, with optional JOINs.

This project models that layer and proves what each clause contains and in
which order.

- A dataframe is its kind (pandas, polars or another object) and its ordered
  column names (`TableProperties.DataFrame`).
- Python's `str.format` templates are values of `Templates.Template`: literal
  text and named slots. Each template module has its own slot datatype and
  states what its templates render.
- Python's `None`, truthiness, `or`, `sep.join`, `in` on strings,
  `replace(old, new, 1)` and filtered list comprehensions are spelt out in
  `Runtime` and `Strings`. `upper`/`lower` are restricted to ASCII letters,
  whereas Python's map every Unicode letter (see "Left out").
- keepitsql/dataframe_to_sql.py lists a polars frame's columns through a
  call polars does not support (see "Findings"). `sql_insert`, `sql_merge`
  and `prepare_column_select_list` of that file are modelled twice: as
  written (`...AsWritten`, a polars frame raises AttributeError) and
  corrected (a polars frame lists its columns). The corrected ones are the
  ones the rest of the model builds on.
- Every exception a modelled path can raise is a `Runtime.Result` error.
- `FromDataFrame` (keepitsql/dataframe_to_sql.py) updates its frame in place.
  It is a class whose `SqlInsert` narrows the stored frame permanently.
- `generate_add_foreign_key_statement` and the `base_query +=` loop of
  `export_select_statements` are methods with loops. They are proved against
  the functions that specify them.

Modules, one per source file or template module: `Runtime`, `Strings`,
`Templates`, `Catalog`, `MergeTemplates`, `ConflictTemplates`,
`InsertTemplates`, `CreateTableTemplates`, `TableProperties`, `Insert`,
`Upsert`, `CoreMerge`, `DataFrameToSql`, `InformationSchema`, `GenDdl`,
`SelectQueries`.

Where the library's own design description and its code differ, the model
follows the code:

- The MERGE `ON` conditions are joined by `",\n  "` (a comma), not by AND.
- MERGE builds one inclusion list, used for the guard, SET, INSERT and VALUES
  lists alike. There is no separate list of constraint columns.
- Match columns are not checked against the frame by `Merge.merge`. An
  unknown match column still yields an `ON` condition.
  `FromDataFrame.sql_merge` does fail for an unknown join key, through its
  discarded `prepare_column_select_list(df, join_keys)` call.
- An empty inclusion list yields empty guard, SET, INSERT and VALUES text.
  No error is raised (`CoreMerge.EmptyInclusionClauses`).
- MERGE compares names case-sensitively. INSERT .. ON CONFLICT compares them
  after upper-casing both sides (`Upsert.ExclusionCaseSensitivity`).
- `format_table_name` never raises. Its ValueError branch cannot be reached,
  and a temp type other than `local`/`global` is ignored.

`keepitsql/core/merge.py` repeats `Merge.merge` of
`keepitsql/core/upsert.py` line for line. Both are `Upsert.Merge`, with the
shared assembly in `Upsert.MergeStatementText`. Likewise, the
`format_table_name` of `keepitsql/dataframe_to_sql.py` is the same function as
that of `keepitsql/core/table_properties.py`: `TableProperties.FormatTableName`.

## Model

| member | source | states |
|---|---|---|
| Runtime.Or | keepitsql/gen_ddl.py:148-149 | `a or b` on optional strings: `a` when it is neither None nor empty, else `b` |
| Runtime.Show | keepitsql/gen_ddl.py:30-34 | an f-string renders a missing value as the text `None` and a present one verbatim |
| TableProperties.SelectColumns | keepitsql/core/table_properties.py:23 | `df[names]` succeeds iff every name is a frame column, gives the frame restricted to `names` in that order, and otherwise raises for a name the frame lacks |
| TableProperties.SelectDataframeColumn | keepitsql/core/table_properties.py:23-48 | list mode gives the frame's names in frame order, or in `select_list` order, or the string `"Unknown type"` for another object; df mode gives the frame, or the frame restricted to the selection; any other `output_type` raises ValueError with the fixed message; an unknown selected column raises first |
| TableProperties.Elements | keepitsql/core/table_properties.py:104 | iterating a list-mode result yields the names, or the one-character strings of the `"Unknown type"` text |
| TableProperties.ColumnList | keepitsql/core/upsert.py:70-73 | the columns the builders iterate are the frame's columns in order, or the 12 characters of `"Unknown type"` for another object |
| TableProperties.PrepareColumnSelectList | keepitsql/core/table_properties.py:99-105 | succeeds iff the selection does; the result is the selected names joined by `",\n "` in frame or selection order |
| TableProperties.EmptySelectionRendersEmpty | keepitsql/core/table_properties.py:99-105 | an empty selection renders as `""` |
| TableProperties.FormatTableName | keepitsql/core/table_properties.py:72-84 | never raises, because the ValueError inside the temp-type branch is unreachable; the name is `schema.` when the schema is truthy, then the `#`/`##` marker when the temp type is `local`/`global`, then the table |
| TableProperties.TempMarker | keepitsql/core/table_properties.py:72-81 | `local` maps to `#`, `global` to `##`, and every other temp type, None included, to no marker |
| TableProperties.FormatTableNamePlain | keepitsql/core/table_properties.py:75-84 | with no temp type and a schema of None or `""`, the name comes back unchanged |
| TableProperties.FormatTableNameSchema | keepitsql/core/table_properties.py:75-84 | a non-empty schema prefixes `schema.` to the rest, so it stands before any temp marker |
| TableProperties.FormatTableNameTemp | keepitsql/core/table_properties.py:72-81 | `local` gives `#name`, `global` gives `##name`, and with schema `dbo` the result is `dbo.##name` |
| TableProperties.FormatTableNameOtherTemp | keepitsql/core/table_properties.py:78-84 | any temp type outside {local, global} gives the same name as no temp type |
| MergeTemplates.MergeConditionText | keepitsql/sql_models/upsert/merge_statement.py:3 | the join template renders `SOURCE.s = t`, with the target side unqualified |
| MergeTemplates.WhenMatchedConditionText | keepitsql/sql_models/upsert/merge_statement.py:4 | the guard template renders `TARGET.t <> SOURCE.s` |
| MergeTemplates.UpdateListText | keepitsql/sql_models/upsert/merge_statement.py:5 | the SET template renders `" t = SOURCE.s"`, with its leading space |
| MergeTemplates.MergeInsertText | keepitsql/sql_models/upsert/merge_statement.py:6-7 | VALUES entries render `SOURCE.s`; INSERT columns render the bare name |
| MergeTemplates.MergeStatementText | keepitsql/sql_models/upsert/merge_statement.py:9-28 | the skeleton is MERGE INTO .. AS TARGET, USING .. AS SOURCE, ON, WHEN MATCHED AND (..), THEN UPDATE SET, WHEN NOT MATCHED THEN INSERT(..) VALUES(..); in that order, with the literal text between the slots |
| MergeTemplates.MergeStatementSlotsOnce | keepitsql/sql_models/upsert/merge_statement.py:9-28 | each of the seven slots occurs exactly once in the skeleton |
| ConflictTemplates.IdentityTemplates | keepitsql/sql_models/upsert/insert_on_confict.py:1-2 | `insert_syntax` and `update_syntax` render their single argument unchanged |
| ConflictTemplates.UpdateListText | keepitsql/sql_models/upsert/insert_on_confict.py:3 | the update template renders `c = EXCLUDED.c` |
| ConflictTemplates.InsertOnConflictText | keepitsql/sql_models/upsert/insert_on_confict.py:6-19 | the statement is the insert text, `ON CONFLICT (m)`, `DO UPDATE SET` and the update list, in that order; the SQLite variant differs only by a `where_true` line before ON CONFLICT |
| InsertTemplates.InsertValuesText | keepitsql/sql_models/insert/insert_statement.py:3 | `insert_values` wraps its value in parentheses |
| InsertTemplates.StandardInsertText | keepitsql/sql_models/insert/insert_statement.py:5-12 | `INSERT INTO t (` columns `) VALUES (` values `)`, with the exact line breaks and indentation |
| InsertTemplates.InsertSelectText | keepitsql/sql_models/insert/insert_statement.py:15-23 | the `column_names` slot occurs twice, so the INSERT and SELECT lists are the same text, and the statement ends with `FROM` and the source table |
| CreateTableTemplates.TempHeaders | keepitsql/sql_models/create_table.py:3-10 | the temp-header map has exactly the keys pg, mysql_global, mssql_global, mssql_local, sqlite and oracle; the MSSQL headers mark the name with `##` and `#` |
| CreateTableTemplates.CreateTableText | keepitsql/sql_models/create_table.py:18 | CREATE TABLE is the header, ` (`, the column list, the primary-key clause and `);` |
| CreateTableTemplates.CreateTblColumnText | keepitsql/sql_models/create_table.py:17 | a column definition is the name, a space and the type |
| CreateTableTemplates.CreateColumnConstraintText | keepitsql/sql_models/create_table.py:16 | a derived constraint name is `rt_rc_lt_lc_fk` |
| Insert.Placeholders | keepitsql/core/insert.py:49 | exactly one placeholder per column, and the i-th is `":" + column[i]` |
| Insert.GenerateInsert.Insert | keepitsql/core/insert.py:13-65 | raises iff the object has no `columns`; without a source table, the standard INSERT with the columns and their placeholders joined by `",\n    "`; with one, INSERT .. SELECT with the same column text in both lists, then `FROM` and the source; the table name is used verbatim |
| Insert.ColumnSelectIgnored | keepitsql/core/insert.py:13-49 | `column_select` has no effect on the statement |
| Insert.InsertExample | keepitsql/core/insert.py:45-56 | columns [ItemID, Quantity] into `SPO.items` render `ItemID,\n    Quantity` and `:ItemID,\n    :Quantity` |
| Upsert.ColumnInclusion | keepitsql/core/upsert.py:75-78 | a column is included iff it is a frame column that is neither a match nor an excluded column, compared case-sensitively; each keeps its multiplicity and the frame order |
| Upsert.JoinConditions | keepitsql/core/upsert.py:80-82 | one `SOURCE.c = c` per match column, in match order |
| Upsert.MatchedConditions | keepitsql/core/upsert.py:84-86 | one `TARGET.c <> SOURCE.c` per included column, in order |
| Upsert.UpdateAssignments | keepitsql/core/upsert.py:88-90 | one `" c = SOURCE.c"` per included column, in order |
| Upsert.InsertValues | keepitsql/core/upsert.py:92 | one `SOURCE.c` per included column, in order |
| Upsert.InsertColumns | keepitsql/core/upsert.py:93-95 | the INSERT column entries are exactly the included columns |
| Upsert.MergeStatementText | keepitsql/core/upsert.py:78-105 | the MERGE text is the skeleton filled with the ON list joined by `",\n  "`, the guard by `",\n OR "`, and the SET, INSERT and VALUES lists by `",\n"`, the last four all over the inclusion list |
| Upsert.RenderMerge | keepitsql/sql_models/upsert/merge_statement.py:9-28 | the skeleton filled with seven given texts, written out as one concatenation |
| Upsert.Merge | keepitsql/core/upsert.py:60-107 | the target name gets only its schema, the source name its schema and temp marker; the columns are the frame's list-mode columns; a missing exclusion list is empty |
| Upsert.MergeNoneExclusion | keepitsql/core/upsert.py:75-76 | no exclusion list and an empty one give the same MERGE |
| Upsert.MergeListSizes | keepitsql/core/upsert.py:78-95 | for repeat-free columns and match columns drawn from them, the inclusion list has `|columns| - |match|` entries; guard, SET, INSERT and VALUES have that many entries, and ON has one per match column |
| Upsert.MergeExample | keepitsql/core/upsert.py:78-95 | [ItemID, ItemName, Quantity] matched on ItemID: ON is `SOURCE.ItemID = ItemID`, and SET and VALUES cover ItemName then Quantity only |
| Upsert.ExampleInclusion | keepitsql/core/upsert.py:78 | the inclusion list of that example is [ItemName, Quantity] |
| Upsert.MatchColumnsNotAssigned | keepitsql/core/upsert.py:78-95 | a match or excluded column has no SET assignment, no INSERT column and no VALUES entry |
| Upsert.NotRendered | keepitsql/core/upsert.py:88-95 | a name outside the column list has no rendered SET, INSERT or VALUES entry |
| Upsert.UpperAll | keepitsql/core/upsert.py:161 | the upper-cased match columns, one per match column, in order |
| Upsert.ConflictUpdateColumns | keepitsql/core/upsert.py:154-162 | exactly the frame columns whose upper-cased name differs from every upper-cased match column, each as often as in the frame, in frame order |
| Upsert.ExcludedAssignments | keepitsql/core/upsert.py:158-160 | one `c = EXCLUDED.c` per column, in order |
| Upsert.ConflictStatement | keepitsql/core/upsert.py:164-166 | the rendered ON CONFLICT statement around the given insert text, conflict target and update list |
| Upsert.InsertOnConflict | keepitsql/core/upsert.py:133-168 | the insert text, then `ON CONFLICT (` the match columns joined by `","` `)`, then the `EXCLUDED` assignments of the non-match columns joined by `",\n"` |
| Upsert.InsertOnConflictIgnoresSource | keepitsql/core/upsert.py:133-166 | the source table, source schema, exclusion list and temp type do not affect the ON CONFLICT statement |
| Upsert.ExclusionCaseSensitivity | keepitsql/core/upsert.py:78-161 | with match column `ID`, frame column `id` stays in the MERGE inclusion list but is dropped from the ON CONFLICT update list |
| Upsert.ConflictDropsId | keepitsql/core/upsert.py:158-162 | the ON CONFLICT update list of [id, Name] with match column `ID` is exactly [Name] |
| Upsert.Upsert | keepitsql/core/upsert.py:221-237 | MERGE when the strategy lookup answers `MERGE`, otherwise INSERT .. ON CONFLICT, with the same arguments |
| CoreMerge.InsertOnConflict | keepitsql/core/merge.py:77-106 | writes the same ON CONFLICT statement the upsert.py copy returns, plus a line break, and returns None |
| CoreMerge.EmptyInclusionClauses | keepitsql/core/merge.py:36-73 | when every column is a match or excluded column, the inclusion list is empty and the statement is still produced, with empty guard, SET, INSERT and VALUES text |
| CoreMerge.NothingIncluded | keepitsql/core/merge.py:40 | no column survives when every column is a match or excluded column |
| DataFrameToSql.Subscript | keepitsql/dataframe_to_sql.py:29 | indexing a frame that was never set raises TypeError; otherwise it succeeds iff every name is a column, giving the narrowed frame |
| DataFrameToSql.SelectDataframeColumnAsWritten | keepitsql/dataframe_to_sql.py:7-43 | list mode: a pandas frame lists its columns, a polars frame raises AttributeError, and another object or a missing frame gives None |
| DataFrameToSql.PolarsListModeRaises | keepitsql/dataframe_to_sql.py:34-37 | a polars frame in list mode raises instead of listing its columns |
| DataFrameToSql.SelectDataframeColumn | keepitsql/dataframe_to_sql.py:7-43 | corrected: pandas and polars frames list their columns in order; another object or a missing frame gives None; df mode gives the selected frame; another `output_type` raises ValueError; selection errors come first |
| DataFrameToSql.Iterate | keepitsql/dataframe_to_sql.py:99 | iterating succeeds exactly on a list of names and yields it; None is not iterable |
| DataFrameToSql.PrepareColumnSelectList | keepitsql/dataframe_to_sql.py:82-100 | corrected: succeeds iff a pandas or polars frame is set and the selection exists; the result is the selected names joined by `",\n "` |
| DataFrameToSql.PrepareColumnSelectListAsWritten | keepitsql/dataframe_to_sql.py:82-100 | as written: succeeds iff a pandas frame is set and the selection exists; a polars frame raises AttributeError; on every frame that is not polars it agrees with the corrected version |
| DataFrameToSql.InsertText | keepitsql/dataframe_to_sql.py:208-212 | the standard INSERT around the formatted name, the column header and the value list |
| DataFrameToSql.FromDataFrame.constructor | keepitsql/dataframe_to_sql.py:119-129 | a new builder stores its target and schema and has no frame |
| DataFrameToSql.FromDataFrame.SetDf | keepitsql/dataframe_to_sql.py:133-145 | replaces the stored frame and returns the same builder |
| DataFrameToSql.FromDataFrame.SqlInsert | keepitsql/dataframe_to_sql.py:147-214 | corrected: a column selection permanently narrows the stored frame; the header step succeeds iff a pandas or polars frame is set and the selection exists (the VALUES list is a parameter); the text is INSERT into the target with schema and temp marker, with the stored names joined by `",\n "` |
| DataFrameToSql.FromDataFrame.SqlInsertAsWritten | keepitsql/dataframe_to_sql.py:183-214 | as written: the frame is narrowed as in the corrected version, but the call succeeds iff a pandas frame is set and the selection exists; a polars frame raises AttributeError after the narrowing |
| DataFrameToSql.FromDataFrame.SqlMerge | keepitsql/dataframe_to_sql.py:216-277 | corrected: succeeds iff a pandas or polars frame is set and every join key is one of its columns; the text is then the `Upsert.Merge` statement for the stored frame, whose target name gets only its schema |
| DataFrameToSql.FromDataFrame.SqlMergeAsWritten | keepitsql/dataframe_to_sql.py:216-277 | as written: a stored polars frame raises AttributeError; with any other stored value the result is that of the corrected `SqlMerge` |
| DataFrameToSql.InsertNarrowsLaterMerge | keepitsql/dataframe_to_sql.py:183-237 | with the corrected builders, for any pandas or polars frame, a selection of its columns and join keys among the selection: `sql_merge` builds the MERGE of the full frame before `sql_insert` with that selection and the MERGE of the narrowed frame after it |
| InformationSchema.GetDialectQuery | keepitsql/read_information_schema.py:52-75 | succeeds iff the dialect is one of the 11 listed names, and the query found is the one registered under that name; otherwise NotImplementedError with the fixed message |
| InformationSchema.DialectRoundTrip | keepitsql/read_information_schema.py:60-75 | every query is found again under its own dialect name |
| InformationSchema.DialectNameInjective | keepitsql/read_information_schema.py:60-72 | no two queries are registered under the same name |
| InformationSchema.UnsupportedMessageNamesDialect | keepitsql/read_information_schema.py:73-74 | the error for an unsupported dialect contains the dialect name |
| InformationSchema.IsAutoIncrement | keepitsql/read_information_schema.py:78-111 | postgresql and redshift: iff the default is truthy and contains `nextval`; mysql: iff a default exists; mssql: iff identity is truthy; oracle: iff the upper-cased default contains `SEQ`; db2: iff identity is `'Y'`; teradata, hana and bigquery: iff the default is truthy; every other dialect, sqlite and snowflake included: never |
| InformationSchema.IsComputedIgnored | keepitsql/read_information_schema.py:78-111 | the computed flag never changes the answer |
| InformationSchema.RunEnd | keepitsql/read_information_schema.py:42 | the end of the maximal run of word characters starting at a position |
| InformationSchema.MatchAtIsRegexMatch | keepitsql/read_information_schema.py:42-43 | the pattern matches at a position iff some non-empty word run starting there is followed by the phrase, ignoring case |
| InformationSchema.RunEndUnique | keepitsql/read_information_schema.py:42 | a word run that stops at a non-word character or the end is the maximal one |
| InformationSchema.SearchFrom | keepitsql/read_information_schema.py:43 | the leftmost match at or after a position, or none when there is none |
| InformationSchema.GetAutoIncrementFromDdl | keepitsql/read_information_schema.py:34-49 | None iff the text has no `<word> INTEGER PRIMARY KEY AUTOINCREMENT` in any case; otherwise the word run of the leftmost match |
| InformationSchema.FoundNameShape | keepitsql/read_information_schema.py:42-47 | the name found is a non-empty word that occurs at the leftmost match, is followed by the phrase and does not start inside a longer word |
| InformationSchema.WordBeforeMatch | keepitsql/read_information_schema.py:42-43 | a word character right before a match starts a match of its own, so the leftmost match never starts inside a word |
| GenDdl.ForeignKeyStatement | keepitsql/gen_ddl.py:26-35 | succeeds iff both column lists are non-empty, otherwise IndexError; the ALTER TABLE text uses the first constrained and first referred column, the formatted referred schema, and None rendered as `None` |
| GenDdl.OnlyFirstColumns | keepitsql/gen_ddl.py:28-34 | columns after the first in either list do not change the statement |
| GenDdl.GenerateAddForeignKeyStatement | keepitsql/gen_ddl.py:18-39 | one statement per foreign key, in input order; `''` instead of a list when there are none; IndexError iff some foreign key has an empty column list |
| GenDdl.ConvertFieldTypeByName | keepitsql/gen_ddl.py:42-57 | the mapped type iff the name is in the mapping, else None |
| GenDdl.CopyDdl.CreateTableNameFormat | keepitsql/gen_ddl.py:146-152 | truthy arguments override the stored names via `or`; the result is `schema.table` when the chosen schema is not None, else the table |
| GenDdl.CopyDdl.CreateConstraintName | keepitsql/gen_ddl.py:127-144 | a missing name becomes `rt_rc_lt_lc_fk`; a given name is kept verbatim |
| GenDdl.EmptySchemaKeepsDot | keepitsql/gen_ddl.py:146-152 | a stored schema of `""` still gives the separating dot |
| GenDdl.AutoincrementColumns | keepitsql/gen_ddl.py:105-107 | the names of the columns kept by the list filter on a truthy `autoincrement`, in column order and with repeats kept |
| GenDdl.ColumnNames | keepitsql/gen_ddl.py:106 | one `name` per column, position by position |
| GenDdl.AutoincrementColumnsMembers | keepitsql/gen_ddl.py:105-108 | a name is listed iff some column with that name has a truthy `autoincrement`; no more names than columns; empty iff no column is auto-increment |
| GenDdl.GetPrimaryKeyInfo | keepitsql/gen_ddl.py:97-112 | declared keys give `PRIMARY KEY (a,b)\n`; otherwise the auto-increment columns do; with neither, `''` |
| SelectQueries.FormatColumn | keepitsql/core/generate_select_queries.py:21-35 | `COALESCE(n, 0) AS n` iff the lower-cased type class name is one of the nine numeric names, else the bare name |
| SelectQueries.FormatColumnExamples | keepitsql/core/generate_select_queries.py:31-35 | `BIGINT` is numeric; `INTEGER` is not |
| SelectQueries.FormattedColumns | keepitsql/core/generate_select_queries.py:71 | one formatted entry per column, in column order |
| SelectQueries.SelectList | keepitsql/core/generate_select_queries.py:72-73 | the formatted columns joined by `",\n    "`, with only the leftmost `", "` replaced |
| SelectQueries.SelectListSplitsCoalesce | keepitsql/core/generate_select_queries.py:71-73 | the replacement lands inside a leading numeric column's COALESCE, not between columns |
| SelectQueries.IntColumnText | keepitsql/core/generate_select_queries.py:31-33 | an `int` column `id` renders as `COALESCE(id, 0) AS id` |
| SelectQueries.FirstCommaOfCoalesce | keepitsql/core/generate_select_queries.py:73 | the leftmost `", "` of `COALESCE(id, 0) AS id` is the one right after `id` |
| SelectQueries.QualifiedName | keepitsql/core/generate_select_queries.py:75-79 | `schema.table` for a non-empty schema, else the bare table |
| SelectQueries.Zip | keepitsql/core/generate_select_queries.py:88 | as many pairs as the shorter list has, matched by position |
| SelectQueries.PairConditions | keepitsql/core/generate_select_queries.py:86-89 | one `table.l = ref.r` per column pair, in order |
| SelectQueries.JoinClauseText | keepitsql/core/generate_select_queries.py:84-95 | a JOIN names the referred table, schema-qualified iff the referred schema is truthy; its ON pairs the columns up to the shorter list, joined by ` AND ` |
| SelectQueries.JoinClauses | keepitsql/core/generate_select_queries.py:81-95 | the JOIN text of a list of foreign keys is empty iff the list is; with `JoinClausesSnoc`, each further key appends its clause at the end |
| SelectQueries.JoinClausesSnoc | keepitsql/core/generate_select_queries.py:83-95 | each further foreign key appends its JOIN clause after those before it |
| SelectQueries.AppendJoins | keepitsql/core/generate_select_queries.py:81-95 | the `base_query +=` loop appends the JOIN clauses of all foreign keys, in order |
| SelectQueries.TableQuery | keepitsql/core/generate_select_queries.py:71-97 | the base query, then the JOIN clauses only when joins are requested, then `;` |
| SelectQueries.FileName | keepitsql/core/generate_select_queries.py:98 | prefix, table and suffix, then `.sql` |
| SelectQueries.FileNameInjective | keepitsql/core/generate_select_queries.py:98 | with a fixed prefix and suffix, two tables share a file iff they have the same name, whatever their schemas |

## Left out

- Real pandas and polars semantics: a frame is its kind and its column names. Indexing an object of another kind by a list is taken to raise.
- Literal-value rendering in `sql_insert` (keepitsql/dataframe_to_sql.py:200-205): the VALUES text is a parameter of `DataFrameToSql.FromDataFrame.SqlInsert`. That code replaces every letter `s` with `d` instead of escaping quotes.
- DataFrameToSql.FromDataFrame.SqlInsert: the value list is taken as given, not derived from the frame's rows. The rendering at keepitsql/dataframe_to_sql.py:200-205 uses `DataFrame.map` and `.values`, which only pandas frames have. So a polars frame would still raise AttributeError there, after the corrected column header. The Ok this member promises for a polars frame covers the column header only, not the whole call.
- keepitsql/dataframe_to_sql.py:3-4 imports `keepitsql.sql_models.insert_statement` and `keepitsql.sql_models.merge_statement`. The other modules import `keepitsql.sql_models.insert.insert_statement` and `keepitsql.sql_models.upsert.merge_statement`, and the templates are those files. Modules at the flat paths are not part of this model; `DataFrameToSql` takes its `ist`/`mst` templates to be the same ones, `InsertTemplates` and `MergeTemplates`.
- keepitsql/core/upsert.py:6 and keepitsql/core/merge.py:1 import `Insert` from keepitsql/core/insert.py, which defines only `GenerateInsert`. Neither module can be imported as written. Every `Upsert` and `CoreMerge` member assumes that this import works.
- The `Merge` class of keepitsql/core/merge.py has no `__init__`. `CoreMerge` takes its target table, schema and frame as given, as the upsert.py copy stores them.
- CoreMerge.InsertOnConflict: the insert text is a parameter. keepitsql/core/merge.py:85 calls `self.insert()`, which the missing `Insert` class would have to supply.
- Upsert.ConflictUpdateColumns: `str.upper()` is restricted to ASCII letters. Python upper-cases every Unicode letter (`é` to `É`, `ß` to `SS`), so the source also drops a column `é` for a match key `É`; the model keeps it.
- InformationSchema.IsAutoIncrement: the oracle rule's `upper()` is restricted to ASCII letters, as for `Upsert.ConflictUpdateColumns`.
- Upsert.InsertOnConflict: the insert text is a parameter. keepitsql/core/upsert.py:6 imports an `Insert` that keepitsql/core/insert.py does not define, and line 151 calls `self.insert()` without its required `table_name`.
- `get_upsert_type_by_dbms` and `schema_formatter` come from `data_engineer_utils`, which is not part of this model. They are function parameters.
- `get_table_column_info` (keepitsql/read_information_schema.py:114-182) is left out: it reads the database through a session and an inspector.
- Also left out, because they need a live SQLAlchemy engine and inspector: `CopyDDl.__post_init__`, `get_table_info`, `create_column_ddl` and `create_foriegn_key_statements` (keepitsql/gen_ddl.py:71-182). `get_primary_key_info` is modelled over the key and column lists the inspector would report.
- `CopyDDl.create_ddl` (keepitsql/gen_ddl.py:184-219) is left out. It reads the undefined name `temp_table_dbms`, and it uses the `alter_table` module, which is not part of this model.
- `export_select_statements`: the directory handling, the timestamp, file writes, the `print` and the loops over schemas and tables are left out. `SelectQueries.TableQuery` and `SelectQueries.FileName` give each table's text and file name.
- The SQL text of keepitsql/sql_models/information_schema.py: each query is a distinct constructor of `InformationSchema.DialectQuery`.
- InformationSchema.GetAutoIncrementFromDdl: word characters are ASCII letters, digits and `_`, and only ASCII letters are case-folded. Python's `\w` and `re.IGNORECASE` also cover other Unicode letters.
- InformationSchema.IsAutoIncrement: `str(column_default)` is taken to be the default itself, since the default is a string or None.
- keepitsql/core/from_dataframe.py: it imports a `GenerateMergeStatement` that does not exist, and its `get_params` only indexes dataframe rows.
- keepitsql/sample.py (a subprocess call), keepitsql/__init__.py (re-exports) and the tests. tests/test_keepitsql/test_main.py imports a module that does not exist.
- Commented-out code in keepitsql/core/upsert.py, keepitsql/core/merge.py and keepitsql/dataframe_to_sql.py.

## Findings

| source | as written | input that shows it | evidently intended | confidence | as-written member | corrected member |
|---|---|---|---|---|---|---|
| keepitsql/dataframe_to_sql.py:34-37 | list mode calls `columns.tolist()` on any object with a `columns` attribute | a polars frame: its `columns` is a plain list, so `tolist` raises AttributeError and the `schema` branch is never reached | polars frames list their column names, as the comment on the `schema` branch says | high; not executed | DataFrameToSql.SelectDataframeColumnAsWritten | DataFrameToSql.SelectDataframeColumn |
| keepitsql/dataframe_to_sql.py:194-197 | `sql_insert` takes its column header from `prepare_column_select_list`, which reaches the same `columns.tolist()` | a polars frame set with `set_df`: `sql_insert` raises AttributeError after narrowing the frame | the column header lists the polars frame's column names, as it does for pandas (the VALUES rendering after it is a separate, pandas-only step) | high; not executed | DataFrameToSql.FromDataFrame.SqlInsertAsWritten | DataFrameToSql.FromDataFrame.SqlInsert |
| keepitsql/dataframe_to_sql.py:234-237 | `sql_merge` takes all columns from `select_dataframe_column` in list mode | a polars frame set with `set_df`: `sql_merge` raises AttributeError | the MERGE covers the polars frame's columns, as it does for pandas | high; not executed | DataFrameToSql.FromDataFrame.SqlMergeAsWritten | DataFrameToSql.FromDataFrame.SqlMerge |
