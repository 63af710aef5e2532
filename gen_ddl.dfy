/** DDL text helpers (keepitsql/gen_ddl.py): foreign-key ALTER TABLE
    statements, field-type overrides, qualified names, constraint names and
    the PRIMARY KEY clause. */
module GenDdl {
  import opened Runtime
  import opened Strings
  import opened Templates
  import opened Catalog
  import CTT = CreateTableTemplates

  /** What `generate_add_foreign_key_statement` returns: the statements, or
      the empty string when there are none. */
  datatype FkStatements = Statements(statements: seq<string>) | EmptyString

  /** The ALTER TABLE text for one foreign key, over its first constrained
      and first referred column; `IndexError` when either list is empty. */
  function ForeignKeyStatement(fk: ForeignKeyInfo, localTable: string, schemaPrefix: string,
                               schemaFormatter: (Option<string>, string) -> string): (r: Result<string>)
    ensures r.Ok? <==> fk.referredColumns != [] && fk.constrainedColumns != []
    ensures r.Raise? ==> r.exception.IndexError?
    ensures r.Ok? ==> (r.value ==
      "ALTER TABLE " + localTable + " ADD CONSTRAINT " + Show(fk.name) +
      " FOREIGN KEY (" + fk.constrainedColumns[0] + ") REFERENCES " +
      schemaFormatter(fk.referredSchema, schemaPrefix) + "." + fk.referredTable +
      " (" + fk.referredColumns[0] + ");")
  {
    var newSchemaName := schemaFormatter(fk.referredSchema, schemaPrefix);
    var referredTable := newSchemaName + "." + fk.referredTable;
    if fk.referredColumns == [] || fk.constrainedColumns == [] then
      Raise(IndexError("list index out of range"))
    else
      var referredColumn := fk.referredColumns[0];
      var localColumn := fk.constrainedColumns[0];
      Ok("ALTER TABLE " + localTable + " ADD CONSTRAINT " + Show(fk.name) +
         " FOREIGN KEY (" + localColumn + ") REFERENCES " + referredTable + " (" + referredColumn + ");")
  }

  /** Only the first constrained and the first referred column are used:
      appending more columns changes nothing. */
  lemma OnlyFirstColumns(fk: ForeignKeyInfo, moreLocal: seq<string>, moreReferred: seq<string>,
                         localTable: string, schemaPrefix: string, schemaFormatter: (Option<string>, string) -> string)
    requires fk.referredColumns != [] && fk.constrainedColumns != []
    ensures ForeignKeyStatement(fk.(constrainedColumns := fk.constrainedColumns + moreLocal,
                                    referredColumns := fk.referredColumns + moreReferred),
                                localTable, schemaPrefix, schemaFormatter)
         == ForeignKeyStatement(fk, localTable, schemaPrefix, schemaFormatter)
  {
  }

  /** `generate_add_foreign_key_statement`: one statement per foreign key, in
      input order, or `''` when there are none; the first foreign key with
      an empty column list raises IndexError. */
  method GenerateAddForeignKeyStatement(foreignKeys: seq<ForeignKeyInfo>, localTable: string, schemaPrefix: string,
                                        schemaFormatter: (Option<string>, string) -> string)
    returns (r: Result<FkStatements>)
    ensures r.Ok? <==> forall i :: 0 <= i < |foreignKeys| ==>
      ForeignKeyStatement(foreignKeys[i], localTable, schemaPrefix, schemaFormatter).Ok?
    ensures r.Ok? && foreignKeys == [] ==> r.value == EmptyString
    ensures r.Ok? && foreignKeys != [] ==> (r.value.Statements? &&
      |r.value.statements| == |foreignKeys| &&
      forall i :: 0 <= i < |foreignKeys| ==>
        r.value.statements[i] == ForeignKeyStatement(foreignKeys[i], localTable, schemaPrefix, schemaFormatter).value)
    ensures r.Raise? ==> r.exception.IndexError?
  {
    var foreignKeyStatements: seq<string> := [];
    for n := 0 to |foreignKeys|
      invariant |foreignKeyStatements| == n
      invariant forall i :: 0 <= i < n ==>
        ForeignKeyStatement(foreignKeys[i], localTable, schemaPrefix, schemaFormatter).Ok? &&
        foreignKeyStatements[i] == ForeignKeyStatement(foreignKeys[i], localTable, schemaPrefix, schemaFormatter).value
    {
      var statement := ForeignKeyStatement(foreignKeys[n], localTable, schemaPrefix, schemaFormatter);
      if statement.Raise? {
        return Raise(statement.exception);
      }
      foreignKeyStatements := foreignKeyStatements + [statement.value];
    }
    r := Ok(if foreignKeyStatements != [] then Statements(foreignKeyStatements) else EmptyString);
  }

  /** `convert_field_type_by_name`: the overriding type when the name has
      one, else `None`. An empty mapping has no names, so its truthiness test
      decides nothing more. */
  function ConvertFieldTypeByName(fieldName: string, fieldTypeChanges: map<string, string>): (r: Option<string>)
    ensures r.Some? <==> fieldName in fieldTypeChanges
    ensures r.Some? ==> r.value == fieldTypeChanges[fieldName]
  {
    if |fieldTypeChanges| > 0 && fieldName in fieldTypeChanges then Some(fieldTypeChanges[fieldName]) else None
  }

  function ConstraintArgs(referredTable: string, referredColumn: string, localTable: string, localColumn: string): CTT.DdlSlot -> string {
    (k: CTT.DdlSlot) => match k
      case ReferredTableName => referredTable
      case ReferredColumnName => referredColumn
      case LocalTableName => localTable
      case LocalColumnName => localColumn
      case _ => ""
  }

  /** `CopyDDl`: the table whose DDL is copied (the connection itself is
      not modelled). */
  datatype CopyDdl = CopyDdl(databaseUrl: string, localTableName: string, localSchemaName: Option<string>) {

    /** `create_table_name_format`: a truthy argument overrides the stored
        name; the result is `schema.table` whenever the chosen schema is not
        `None`, even when it is empty. */
    function CreateTableNameFormat(newTableName: Option<string>, newSchemaName: Option<string>): (r: string)
      ensures var table := if Present(newTableName) then newTableName.value else localTableName;
        (Present(newSchemaName) ==> r == newSchemaName.value + "." + table) &&
        (!Present(newSchemaName) && localSchemaName.Some? ==> r == localSchemaName.value + "." + table) &&
        (!Present(newSchemaName) && localSchemaName.None? ==> r == table)
    {
      var tblName := Or(newTableName, Some(localTableName)).value;
      var schName := Or(newSchemaName, localSchemaName);
      if schName.Some? then schName.value + "." + tblName else tblName
    }

    /** `create_constraint_name`: a missing name is derived as
        `rt_rc_lt_lc_fk`; a given name is kept verbatim. */
    function CreateConstraintName(constraintName: Option<string>, localTable: string, localColumn: string,
                                  referredTable: string, referredColumn: string): (r: string)
      ensures constraintName.Some? ==> r == constraintName.value
      ensures constraintName.None? ==>
        r == referredTable + "_" + referredColumn + "_" + localTable + "_" + localColumn + "_fk"
    {
      if constraintName.None? then
        var args := ConstraintArgs(referredTable, referredColumn, localTable, localColumn);
        CTT.CreateColumnConstraintText(args);
        Format(CTT.CreateColumnConstraint, args)
      else constraintName.value
    }
  }

  /** A stored schema of `""` still produces the separating dot. */
  lemma EmptySchemaKeepsDot(c: CopyDdl)
    requires c.localSchemaName == Some("")
    ensures c.CreateTableNameFormat(None, None) == "." + c.localTableName
  {
  }

  /** A column whose `autoincrement` entry is truthy. */
  predicate IsAutoincrement(c: ColumnInfo) {
    Truthy(c.autoincrement)
  }

  /** The names of the given columns, in order. */
  function ColumnNames(columns: seq<ColumnInfo>): (r: seq<string>)
    ensures |r| == |columns| && forall i :: 0 <= i < |columns| ==> r[i] == columns[i].name
  {
    seq(|columns|, i requires 0 <= i < |columns| => columns[i].name)
  }

  /** The names of the columns whose `autoincrement` entry is truthy, in
      column order: the name list of the auto-increment columns kept by the
      list filter, each as often as it occurs. */
  function AutoincrementColumns(columns: seq<ColumnInfo>): (r: seq<string>)
    ensures r == ColumnNames(Filter(columns, IsAutoincrement))
  {
    if columns == [] then []
    else
      var rest := AutoincrementColumns(columns[1..]);
      if IsAutoincrement(columns[0]) then
        ColumnNamesCons(columns[0], Filter(columns[1..], IsAutoincrement));
        [columns[0].name] + rest
      else rest
  }

  /** The auto-increment names are those of the truthy columns, never more
      than there are columns, and there are none iff no column is truthy. */
  lemma AutoincrementColumnsMembers(columns: seq<ColumnInfo>)
    ensures |AutoincrementColumns(columns)| <= |columns|
    ensures forall n :: n in AutoincrementColumns(columns) <==>
      exists c :: c in columns && Truthy(c.autoincrement) && c.name == n
    ensures AutoincrementColumns(columns) == [] <==> forall c :: c in columns ==> !Truthy(c.autoincrement)
  {
    var kept := Filter(columns, IsAutoincrement);
    forall n ensures n in AutoincrementColumns(columns) <==>
      exists c :: c in columns && Truthy(c.autoincrement) && c.name == n {
      NameOfKept(kept, n);
    }
    if c :| c in columns && Truthy(c.autoincrement) {
      assert c in kept;
    }
  }

  /** A name is in the name list of some columns iff one of them has it. */
  lemma NameOfKept(kept: seq<ColumnInfo>, n: string)
    ensures n in ColumnNames(kept) <==> exists c :: c in kept && c.name == n
  {
    var r := ColumnNames(kept);
    if n in r {
      var i :| 0 <= i < |r| && r[i] == n;
      assert kept[i] in kept;
    }
    if c :| c in kept && c.name == n {
      var i :| 0 <= i < |kept| && kept[i] == c;
      assert r[i] == n;
    }
  }

  lemma ColumnNamesCons(c: ColumnInfo, cs: seq<ColumnInfo>)
    ensures ColumnNames([c] + cs) == [c.name] + ColumnNames(cs)
  {
  }

  /** `get_primary_key_info`, over the primary-key columns and column list
      the inspector reports: the declared key when there is one, else the
      auto-increment columns, else `''`. */
  function GetPrimaryKeyInfo(primaryKeys: Option<seq<string>>, columns: seq<ColumnInfo>): (r: string)
    ensures primaryKeys.Some? && primaryKeys.value != [] ==>
      r == "PRIMARY KEY (" + Join(primaryKeys.value, ",") + ")\n"
    ensures (primaryKeys.None? || primaryKeys.value == []) && AutoincrementColumns(columns) != [] ==>
      r == "PRIMARY KEY (" + Join(AutoincrementColumns(columns), ",") + ")\n"
    ensures (primaryKeys.None? || primaryKeys.value == []) ==>
      (r == "" <==> forall c :: c in columns ==> !Truthy(c.autoincrement))
  {
    if primaryKeys.None? || primaryKeys.value == [] then
      AutoincrementColumnsMembers(columns);
      var identityIntColumns := AutoincrementColumns(columns);
      if identityIntColumns != [] then "PRIMARY KEY (" + Join(identityIntColumns, ",") + ")\n" else ""
    else "PRIMARY KEY (" + Join(primaryKeys.value, ",") + ")\n"
  }
}
