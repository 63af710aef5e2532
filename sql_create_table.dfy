/** The DDL templates (keepitsql/sql_models/create_table.py). */
module CreateTableTemplates {
  import opened Templates

  datatype DdlSlot =
    | TableName
    | ReferredTableName | ReferredColumnName | LocalTableName | LocalColumnName
    | ColumnName | ColumnType
    | TableHeader | ColumnList | PrimaryKey

  const CreateTempTableHeader: map<string, Template<DdlSlot>> := map[
    "pg" := Lit("CREATE TEMP TABLE ", Slot(TableName, Lit(" ", End))),
    "mysql_global" := Lit("CREATE TEMPORARY TABLE ", Slot(TableName, Lit(" ", End))),
    "mssql_global" := Lit("CREATE TABLE ##", Slot(TableName, Lit(" ", End))),
    "mssql_local" := Lit("CREATE TABLE #", Slot(TableName, Lit(" ", End))),
    "sqlite" := Lit("CREATE TEMP TABLE ", Slot(TableName, Lit(" ", End))),
    "oracle" := Lit("CREATE GLOBAL TEMPORARY TABLE ", Slot(TableName, Lit(" ", End)))
  ]

  const CreateTableHeader: Template<DdlSlot> := Lit("CREATE TABLE ", Slot(TableName, End))

  const CreateColumnConstraint: Template<DdlSlot> :=
    Slot(ReferredTableName, Lit("_", Slot(ReferredColumnName, Lit("_",
    Slot(LocalTableName, Lit("_", Slot(LocalColumnName, Lit("_fk", End))))))))

  const CreateTblColumn: Template<DdlSlot> := Slot(ColumnName, Lit(" ", Slot(ColumnType, End)))

  const CreateTable: Template<DdlSlot> :=
    Slot(TableHeader, Lit(" (\n", Slot(ColumnList, Lit(" \n", Slot(PrimaryKey, Lit(");", End))))))

  /** The temporary-table headers exist for exactly six targets; the MSSQL
      ones mark the name with `##` (global) and `#` (local). */
  lemma TempHeaders(a: DdlSlot -> string)
    ensures CreateTempTableHeader.Keys ==
      {"pg", "mysql_global", "mssql_global", "mssql_local", "sqlite", "oracle"}
    ensures Format(CreateTempTableHeader["mssql_global"], a) == "CREATE TABLE ##" + a(TableName) + " "
    ensures Format(CreateTempTableHeader["mssql_local"], a) == "CREATE TABLE #" + a(TableName) + " "
  {
  }

  /** `CREATE TABLE` is the header, ` (`, the column list, the primary key
      clause and `);`. */
  lemma CreateTableText(a: DdlSlot -> string)
    ensures Format(CreateTable, a) ==
      a(TableHeader) + (" (\n" + (a(ColumnList) + (" \n" + (a(PrimaryKey) + ");"))))
  {
    assert Format(Lit(" \n", Slot(PrimaryKey, Lit(");", End))), a) == " \n" + (a(PrimaryKey) + ");");
  }

  /** A column definition is the name, a space and the type. */
  lemma CreateTblColumnText(a: DdlSlot -> string)
    ensures Format(CreateTblColumn, a) == a(ColumnName) + " " + a(ColumnType)
  {
  }

  /** A generated constraint name is `rt_rc_lt_lc_fk`. */
  lemma CreateColumnConstraintText(a: DdlSlot -> string)
    ensures Format(CreateColumnConstraint, a) ==
      a(ReferredTableName) + ("_" + (a(ReferredColumnName) + ("_" +
      (a(LocalTableName) + ("_" + (a(LocalColumnName) + "_fk"))))))
  {
    assert Format(Lit("_", Slot(LocalColumnName, Lit("_fk", End))), a) == "_" + (a(LocalColumnName) + "_fk");
  }
}
