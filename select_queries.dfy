/** SELECT script text (keepitsql/core/generate_select_queries.py): column
    formatting, the per-table query with optional JOINs, and the file name
    each query is written under. */
module SelectQueries {
  import opened Runtime
  import opened Strings
  import opened Catalog

  /** Type class names (lower-cased) whose columns default to 0. */
  const NumericTypes := ["int", "float", "money", "decimal", "numeric", "smallint", "tinyint", "bigint", "real"]

  /** `format_column`: numeric columns are wrapped in `COALESCE(n, 0) AS n`,
      the others are the bare name. */
  function FormatColumn(column: ColumnInfo): (r: string)
    ensures Lower(column.typeName) in NumericTypes ==> r == "COALESCE(" + column.name + ", 0) AS " + column.name
    ensures Lower(column.typeName) !in NumericTypes ==> r == column.name
  {
    if Lower(column.typeName) in NumericTypes then "COALESCE(" + column.name + ", 0) AS " + column.name
    else column.name
  }

  /** The type class name is lower-cased before the lookup, so `BIGINT`
      counts as numeric; `INTEGER` does not, because only the exact names of
      the list count. */
  lemma FormatColumnExamples(name: string)
    ensures FormatColumn(ColumnInfo(name, "BIGINT", NoneValue)) == "COALESCE(" + name + ", 0) AS " + name
    ensures FormatColumn(ColumnInfo(name, "INTEGER", NoneValue)) == name
  {
    assert Lower("BIGINT") == "bigint";
    assert Lower("INTEGER") == "integer";
    assert |"integer"| == 7;
    assert forall t :: t in NumericTypes ==> t != "integer";
  }

  /** The formatted columns, in column order. */
  function FormattedColumns(columns: seq<ColumnInfo>): (r: seq<string>)
    ensures |r| == |columns| && forall i :: 0 <= i < |columns| ==> r[i] == FormatColumn(columns[i])
  {
    seq(|columns|, i requires 0 <= i < |columns| => FormatColumn(columns[i]))
  }

  const ColumnSeparator := ",\n    "

  /** The SELECT list: the formatted columns joined by `",\n    "`, then the
      first `", "` in that text (wherever it is) replaced by `",\n    "`. */
  function SelectList(columns: seq<ColumnInfo>): (r: string)
    ensures var joined := Join(FormattedColumns(columns), ColumnSeparator);
      (!Contains(joined, ", ") ==> r == joined) &&
      (Contains(joined, ", ") ==> exists i: nat | i + 2 <= |joined| ::
         OccursAt(joined, ", ", i) && (forall k: nat :: k < i ==> !OccursAt(joined, ", ", k)) &&
         r == joined[..i] + ColumnSeparator + joined[i + 2..])
  {
    ReplaceFirst(Join(FormattedColumns(columns), ColumnSeparator), ", ", ColumnSeparator)
  }

  /** The replacement lands inside the first numeric column's COALESCE,
      not between columns: a leading numeric column `id` renders as
      `COALESCE(id,\n    0) AS id`. */
  lemma SelectListSplitsCoalesce()
    ensures SelectList([ColumnInfo("id", "int", NoneValue)]) == "COALESCE(id" + ColumnSeparator + "0) AS id"
  {
    var text := "COALESCE(id, 0) AS id";
    IntColumnText();
    var formatted := FormattedColumns([ColumnInfo("id", "int", NoneValue)]);
    assert formatted == [text];
    assert Join(formatted, ColumnSeparator) == text;
    FirstCommaOfCoalesce(text);
    assert text[..11] == "COALESCE(id" && text[13..] == "0) AS id";
  }

  lemma IntColumnText()
    ensures FormatColumn(ColumnInfo("id", "int", NoneValue)) == "COALESCE(id, 0) AS id"
  {
    assert Lower("int") == "int";
    assert "COALESCE(" + "id" + ", 0) AS " + "id" == "COALESCE(id, 0) AS id";
  }

  /** The first `", "` of `COALESCE(id, 0) AS id` is the one after `id`. */
  lemma FirstCommaOfCoalesce(text: string)
    requires text == "COALESCE(id, 0) AS id"
    ensures FindFrom(text, ", ", 0) == Some(11)
  {
    assert OccursAt(text, ", ", 11);
    forall k: nat | k < 11 ensures !OccursAt(text, ", ", k) {
      assert text[k] in "COALESCE(id";
      assert ',' !in "COALESCE(id";
    }
  }

  /** `schema.table` for a non-empty schema, else the bare table name. */
  function QualifiedName(schema: string, tableName: string): (r: string)
    ensures schema != "" ==> r == schema + "." + tableName
    ensures schema == "" ==> r == tableName
  {
    if schema != "" then schema + "." + tableName else tableName
  }

  /** The query before any JOIN. */
  function BaseQuery(schema: string, tableName: string, columns: seq<ColumnInfo>): string {
    "SELECT \n    " + SelectList(columns) + " \nFROM \n    " + QualifiedName(schema, tableName)
  }

  /** The pairs `zip` yields: as many as the shorter list has. */
  function Zip(a: seq<string>, b: seq<string>): (r: seq<(string, string)>)
    ensures |r| == if |a| < |b| then |a| else |b|
    ensures forall i :: 0 <= i < |r| ==> r[i] == (a[i], b[i])
  {
    if a == [] || b == [] then [] else [(a[0], b[0])] + Zip(a[1..], b[1..])
  }

  /** `table.l = ref.r`, one per column pair. */
  function PairConditions(tableName: string, referredTable: string, pairs: seq<(string, string)>): (r: seq<string>)
    ensures |r| == |pairs|
    ensures forall i :: 0 <= i < |pairs| ==> r[i] == tableName + "." + pairs[i].0 + " = " + referredTable + "." + pairs[i].1
  {
    if pairs == [] then []
    else [tableName + "." + pairs[0].0 + " = " + referredTable + "." + pairs[0].1]
         + PairConditions(tableName, referredTable, pairs[1..])
  }

  /** The ON condition of one foreign key: the column pairs, truncated to
      the shorter list, joined by ` AND `. */
  function JoinCondition(tableName: string, fk: ForeignKeyInfo): string {
    Join(PairConditions(tableName, fk.referredTable, Zip(fk.constrainedColumns, fk.referredColumns)), " AND ")
  }

  /** The JOIN clause of one foreign key. */
  function JoinClause(tableName: string, fk: ForeignKeyInfo): string {
    var joinCondition := JoinCondition(tableName, fk);
    if !Present(fk.referredSchema) then "\nJOIN " + fk.referredTable + " \n    ON " + joinCondition
    else "\nJOIN " + fk.referredSchema.value + "." + fk.referredTable + " \n    ON " + joinCondition
  }

  /** A JOIN clause names the referred table, schema-qualified when the
      referred schema is truthy, and its ON condition pairs the columns up to
      the shorter list, joined by ` AND `. */
  lemma JoinClauseText(tableName: string, fk: ForeignKeyInfo)
    ensures Present(fk.referredSchema) ==>
      JoinClause(tableName, fk) == "\nJOIN " + fk.referredSchema.value + "." + fk.referredTable + " \n    ON " + JoinCondition(tableName, fk)
    ensures !Present(fk.referredSchema) ==>
      JoinClause(tableName, fk) == "\nJOIN " + fk.referredTable + " \n    ON " + JoinCondition(tableName, fk)
    ensures var pairs := PairConditions(tableName, fk.referredTable, Zip(fk.constrainedColumns, fk.referredColumns));
      JoinCondition(tableName, fk) == Join(pairs, " AND ") &&
      |pairs| == (if |fk.constrainedColumns| < |fk.referredColumns| then |fk.constrainedColumns| else |fk.referredColumns|) &&
      forall i :: 0 <= i < |pairs| ==>
        pairs[i] == tableName + "." + fk.constrainedColumns[i] + " = " + fk.referredTable + "." + fk.referredColumns[i]
  {
  }

  /** The JOIN clauses of the first foreign keys, concatenated in order;
      each foreign key contributes at least its `JOIN` keyword, so the text
      is empty iff there are none. */
  function JoinClauses(tableName: string, fks: seq<ForeignKeyInfo>): (r: string)
    ensures r == "" <==> fks == []
  {
    if fks == [] then "" else JoinClauses(tableName, fks[..|fks| - 1]) + JoinClause(tableName, fks[|fks| - 1])
  }

  /** A table of the inspected database. */
  datatype TableInfo = TableInfo(name: string, columns: seq<ColumnInfo>, foreignKeys: seq<ForeignKeyInfo>)

  lemma JoinClausesSnoc(tableName: string, fks: seq<ForeignKeyInfo>, n: nat)
    requires n < |fks|
    ensures JoinClauses(tableName, fks[..n + 1]) == JoinClauses(tableName, fks[..n]) + JoinClause(tableName, fks[n])
  {
    assert fks[..n + 1][..n] == fks[..n] && fks[..n + 1][n] == fks[n];
  }

  /** Regrouping a concatenation; the loop below needs it stated for its
      three strings. */
  lemma AppendAssoc(a: string, b: string, c: string)
    ensures (a + b) + c == a + (b + c)
  {
  }

  /** `base_query += ...` once per foreign key, in order. */
  method AppendJoins(baseQuery: string, tableName: string, fks: seq<ForeignKeyInfo>) returns (query: string)
    ensures query == baseQuery + JoinClauses(tableName, fks)
  {
    query := baseQuery;
    for n := 0 to |fks|
      invariant query == baseQuery + JoinClauses(tableName, fks[..n])
    {
      var clause := JoinClause(tableName, fks[n]);
      var done := JoinClauses(tableName, fks[..n]);
      JoinClausesSnoc(tableName, fks, n);
      AppendAssoc(baseQuery, done, clause);
      query := query + clause;
    }
    assert fks[..|fks|] == fks;
  }

  /** The query for one table, assembled as the loop body does: the base
      query, then one JOIN clause per foreign key when joins are requested,
      then `;`. */
  method TableQuery(schema: string, table: TableInfo, includeJoins: bool) returns (query: string)
    ensures query == BaseQuery(schema, table.name, table.columns)
                     + (if includeJoins then JoinClauses(table.name, table.foreignKeys) else "") + ";"
  {
    var baseQuery := BaseQuery(schema, table.name, table.columns);
    if includeJoins {
      baseQuery := AppendJoins(baseQuery, table.name, table.foreignKeys);
    }
    query := baseQuery + ";";
  }

  /** The file a table's query is written to. */
  function FileName(filePrefix: string, tableName: string, fileSuffix: string): (r: string)
    ensures |r| == |filePrefix| + |tableName| + |fileSuffix| + 4
    ensures r[..|filePrefix|] == filePrefix && r[|r| - 4..] == ".sql"
    ensures r[|filePrefix|..|filePrefix| + |tableName|] == tableName
  {
    filePrefix + tableName + fileSuffix + ".sql"
  }

  /** With a fixed prefix and suffix, tables with different names get
      different files; the schema plays no part, so equally named tables of
      two schemas share one. */
  lemma FileNameInjective(filePrefix: string, fileSuffix: string, a: string, b: string)
    ensures FileName(filePrefix, a, fileSuffix) == FileName(filePrefix, b, fileSuffix) <==> a == b
  {
    if FileName(filePrefix, a, fileSuffix) == FileName(filePrefix, b, fileSuffix) {
      assert FileName(filePrefix, a, fileSuffix)[|filePrefix|..|filePrefix| + |a|] == a;
    }
  }
}
