/** The INSERT templates (keepitsql/sql_models/insert/insert_statement.py). */
module InsertTemplates {
  import opened Templates

  datatype InsertSlot =
    | InsValue | TableName | ColumnNames | InsertValueList
    | TargetTableName | SourceTable

  const InsertValues: Template<InsertSlot> := Lit("(", Slot(InsValue, Lit(")", End)))

  const InsertInto := "\nINSERT INTO "
  const OpenColumns := " (\n    "
  const ValuesOpen := "\n)\nVALUES (\n    "
  const ValuesClose := "\n)\n"

  const StandardInsert: Template<InsertSlot> :=
    Lit(InsertInto, Slot(TableName, Lit(OpenColumns, Slot(ColumnNames,
    Lit(ValuesOpen, Slot(InsertValueList, Lit(ValuesClose, End)))))))

  const OpenSelectColumns := " (\n "
  const SelectOpen := "\n)\nSELECT \n "
  const From := "\nFROM "
  const SelectClose := "\n\n"

  const InsertSelectStatment: Template<InsertSlot> :=
    Lit(InsertInto, Slot(TargetTableName, Lit(OpenSelectColumns, Slot(ColumnNames,
    Lit(SelectOpen, Slot(ColumnNames, Lit(From, Slot(SourceTable, Lit(SelectClose, End)))))))))

  /** `insert_values` parenthesises its value. */
  lemma InsertValuesText(a: InsertSlot -> string)
    ensures Format(InsertValues, a) == "(" + a(InsValue) + ")"
  {
  }

  /** `INSERT INTO t (` columns `) VALUES (` values `)`. */
  lemma StandardInsertText(a: InsertSlot -> string)
    ensures Format(StandardInsert, a) ==
      InsertInto + (a(TableName) + (OpenColumns + (a(ColumnNames) +
      (ValuesOpen + (a(InsertValueList) + ValuesClose)))))
  {
    assert Format(Lit(ValuesOpen, Slot(InsertValueList, Lit(ValuesClose, End))), a)
        == ValuesOpen + (a(InsertValueList) + ValuesClose);
  }

  /** The same column text fills the INSERT list and the SELECT list, and
      the statement ends with `FROM` and the source table. */
  lemma InsertSelectText(a: InsertSlot -> string)
    ensures Count(InsertSelectStatment, ColumnNames) == 2
    ensures Format(InsertSelectStatment, a) ==
      InsertInto + (a(TargetTableName) + (OpenSelectColumns + (a(ColumnNames) +
      (SelectOpen + (a(ColumnNames) + (From + (a(SourceTable) + SelectClose)))))))
  {
    var t := Lit(From, Slot(SourceTable, Lit(SelectClose, End)));
    assert Format(t, a) == From + (a(SourceTable) + SelectClose);
    assert Count(t, ColumnNames) == 0;
    assert Format(Lit(SelectOpen, Slot(ColumnNames, t)), a) == SelectOpen + (a(ColumnNames) + Format(t, a));
  }
}
