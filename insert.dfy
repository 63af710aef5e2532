/** The parameterised INSERT builder (keepitsql/core/insert.py). */
module Insert {
  import opened Runtime
  import opened Strings
  import opened Templates
  import opened TableProperties
  import IT = InsertTemplates

  const ColumnSeparator := ",\n    "

  /** The bind placeholders `:col`, one per column, in column order. */
  function Placeholders(columns: seq<string>): (r: seq<string>)
    ensures |r| == |columns|
    ensures forall i :: 0 <= i < |columns| ==> r[i] == ":" + columns[i]
  {
    if columns == [] then [] else [":" + columns[0]] + Placeholders(columns[1..])
  }

  function StandardInsertArgs(tableName: string, columnNames: string, valueList: string): IT.InsertSlot -> string {
    (k: IT.InsertSlot) => match k
         case TableName => tableName
         case ColumnNames => columnNames
         case InsertValueList => valueList
         case _ => ""
  }

  function InsertSelectArgs(targetTableName: string, columnNames: string, sourceTable: string): IT.InsertSlot -> string {
    (k: IT.InsertSlot) => match k
         case TargetTableName => targetTableName
         case ColumnNames => columnNames
         case SourceTable => sourceTable
         case _ => ""
  }

  /** `GenerateInsert(dataframe)`: the constructor only stores the frame. */
  datatype GenerateInsert = GenerateInsert(dataframe: DataFrame) {

    /** `insert(table_name, column_select, source_table)`: without a source
        table, a parameterised INSERT with one `:col` placeholder per column;
        with one, INSERT .. SELECT over the same column text. The table name
        is used verbatim and `columnSelect` is never read. An object without
        `columns` raises. */
    function Insert(tableName: string, columnSelect: Option<seq<string>>, sourceTable: Option<string>): (r: Result<string>)
      ensures r.Raise? <==> dataframe.kind == Other
      ensures r.Ok? && sourceTable.None? ==>
        r.value == IT.InsertInto + (tableName + (IT.OpenColumns + (Join(dataframe.columns, ColumnSeparator) +
          (IT.ValuesOpen + (Join(Placeholders(dataframe.columns), ColumnSeparator) + IT.ValuesClose)))))
      ensures r.Ok? && sourceTable.Some? ==>
        r.value == IT.InsertInto + (tableName + (IT.OpenSelectColumns + (Join(dataframe.columns, ColumnSeparator) +
          (IT.SelectOpen + (Join(dataframe.columns, ColumnSeparator) + (IT.From + (sourceTable.value + IT.SelectClose)))))))
    {
      if dataframe.kind == Other then Raise(AttributeError("object has no attribute 'columns'"))
      else
        var columns := dataframe.columns;
        var columnsPlaceholder := Join(columns, ColumnSeparator);
        var valuesPlaceholder := Join(Placeholders(columns), ColumnSeparator);
        if sourceTable.Some? then
          var args := InsertSelectArgs(tableName, columnsPlaceholder, sourceTable.value);
          IT.InsertSelectText(args);
          Ok(Format(IT.InsertSelectStatment, args))
        else
          var args := StandardInsertArgs(tableName, columnsPlaceholder, valuesPlaceholder);
          IT.StandardInsertText(args);
          Ok(Format(IT.StandardInsert, args))
    }
  }

  /** `column_select` has no effect on the statement. */
  lemma ColumnSelectIgnored(g: GenerateInsert, tableName: string, a: Option<seq<string>>, b: Option<seq<string>>, sourceTable: Option<string>)
    ensures g.Insert(tableName, a, sourceTable) == g.Insert(tableName, b, sourceTable)
  {
  }

  /** For columns [ItemID, Quantity] the column list is `ItemID,\n    Quantity`
      and the VALUES list `:ItemID,\n    :Quantity`. */
  lemma {:induction false} InsertExample()
    ensures GenerateInsert(DataFrame(Pandas, ["ItemID", "Quantity"])).Insert("SPO.items", None, None)
         == Ok(IT.InsertInto + ("SPO.items" + (IT.OpenColumns + ("ItemID,\n    Quantity" +
              (IT.ValuesOpen + (":ItemID,\n    :Quantity" + IT.ValuesClose))))))
  {
    var cols := ["ItemID", "Quantity"];
    assert cols[1..] == ["Quantity"];
    assert ":" + "ItemID" == ":ItemID";
    assert ":" + "Quantity" == ":Quantity";
    assert Placeholders(cols) == [":ItemID", ":Quantity"];
    assert Placeholders(cols)[1..] == [":Quantity"];
    assert Join(cols, ColumnSeparator) == "ItemID,\n    Quantity";
    assert Join(Placeholders(cols), ColumnSeparator) == ":ItemID,\n    :Quantity";
  }
}
