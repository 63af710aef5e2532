/** The dataframe front end (keepitsql/dataframe_to_sql.py): its own copies
    of the column helpers and the stateful `FromDataFrame` builder. Its
    `format_table_name` is the same function as `TableProperties.FormatTableName`. */
module DataFrameToSql {
  import opened Runtime
  import opened Strings
  import opened Templates
  import TP = TableProperties
  import Upsert
  import IT = InsertTemplates

  /** What this module's `select_dataframe_column` hands back: a list of
      names, `None` (an object with neither `columns` nor `schema`), or the
      selected frame itself (`None` when no frame was set). */
  datatype Selected = Names(names: seq<string>) | NoneResult | Frame(frame: Option<TP.DataFrame>)

  /** `source_dataframe[select_list]`, where the frame may not be set yet. */
  function Subscript(source: Option<TP.DataFrame>, selectList: seq<string>): (r: Result<Option<TP.DataFrame>>)
    ensures source.None? ==> r.Raise? && r.exception.TypeError?
    ensures source.Some? ==> (r.Ok? <==> TP.SelectColumns(source.value, selectList).Ok?)
    ensures r.Ok? ==> r.value == Some(TP.DataFrame(source.value.kind, selectList))
  {
    if source.None? then Raise(TypeError("'NoneType' object is not subscriptable"))
    else
      var selected :- TP.SelectColumns(source.value, selectList);
      Ok(Some(selected))
  }

  /** The selection step both versions of `select_dataframe_column` share. */
  function SelectRows(source: Option<TP.DataFrame>, selectList: Option<seq<string>>): Result<Option<TP.DataFrame>> {
    if selectList.Some? then Subscript(source, selectList.value) else Ok(source)
  }

  /** `select_dataframe_column` exactly as written: in list mode it calls
      `columns.tolist()` on anything that has `columns`. A polars frame's
      `columns` is a plain list, which has no `tolist`, so the polars branch
      on `schema` is never reached and polars frames raise. */
  function SelectDataframeColumnAsWritten(source: Option<TP.DataFrame>, selectList: Option<seq<string>>, outputType: string): (r: Result<Selected>)
    ensures outputType == "list" && SelectRows(source, selectList).Ok? ==>
      match SelectRows(source, selectList).value
      case Some(df) => (df.kind == TP.Pandas ==> r == Ok(Names(df.columns))) &&
                       (df.kind == TP.Polars ==> r.Raise? && r.exception.AttributeError?) &&
                       (df.kind == TP.Other ==> r == Ok(NoneResult))
      case None => r == Ok(NoneResult)
  {
    var selected :- SelectRows(source, selectList);
    if outputType == "list" then
      match selected
      case Some(df) =>
        (match df.kind
         case Pandas => Ok(Names(df.columns))
         case Polars => Raise(AttributeError("'list' object has no attribute 'tolist'"))
         case Other => Ok(NoneResult))
      case None => Ok(NoneResult)
    else if outputType == "df" then Ok(Frame(selected))
    else Raise(ValueError(TP.OutputTypeMessage))
  }

  /** A polars frame in list mode makes the as-written function raise
      instead of listing its columns. */
  lemma PolarsListModeRaises(columns: seq<string>)
    ensures SelectDataframeColumnAsWritten(Some(TP.DataFrame(TP.Polars, columns)), None, "list").Raise?
  {
  }

  /** `select_dataframe_column` as its comments intend: pandas and polars
      frames both list their columns in frame order; an object with neither
      `columns` nor `schema`, or a frame that was never set, gives `None`; an
      `output_type` other than `'df'` and `'list'` raises ValueError. */
  function SelectDataframeColumn(source: Option<TP.DataFrame>, selectList: Option<seq<string>>, outputType: string): (r: Result<Selected>)
    ensures SelectRows(source, selectList).Raise? ==> r == Raise(SelectRows(source, selectList).exception)
    ensures SelectRows(source, selectList).Ok? && outputType == "list" ==>
      r == Ok(match SelectRows(source, selectList).value
              case Some(df) => if df.kind == TP.Other then NoneResult else Names(df.columns)
              case None => NoneResult)
    ensures SelectRows(source, selectList).Ok? && outputType == "df" ==> r == Ok(Frame(SelectRows(source, selectList).value))
    ensures SelectRows(source, selectList).Ok? && outputType != "list" && outputType != "df" ==>
      r == Raise(ValueError(TP.OutputTypeMessage))
  {
    var selected :- SelectRows(source, selectList);
    if outputType == "list" then
      match selected
      case Some(df) =>
        (match df.kind
         case Pandas => Ok(Names(df.columns))
         case Polars => Ok(Names(df.columns))
         case Other => Ok(NoneResult))
      case None => Ok(NoneResult)
    else if outputType == "df" then Ok(Frame(selected))
    else Raise(ValueError(TP.OutputTypeMessage))
  }

  /** Iterating over a list-mode result; `None` is not iterable. */
  function Iterate(s: Selected): (r: Result<seq<string>>)
    ensures s.Names? <==> r.Ok?
    ensures s.Names? ==> r.value == s.names
  {
    match s
    case Names(names) => Ok(names)
    case NoneResult => Raise(TypeError("'NoneType' object is not iterable"))
    case Frame(_) => Raise(TypeError("iterating a frame is not modelled"))
  }

  /** `prepare_column_select_list`: the selected names joined by `",\n "`;
      with no usable frame the join raises TypeError. */
  function PrepareColumnSelectList(source: Option<TP.DataFrame>, selectList: Option<seq<string>>): (r: Result<string>)
    ensures r.Ok? <==> source.Some? && source.value.kind != TP.Other &&
                       (selectList.None? || TP.SelectColumns(source.value, selectList.value).Ok?)
    ensures r.Ok? && selectList.None? ==> r.value == Join(source.value.columns, ",\n ")
    ensures r.Ok? && selectList.Some? ==> r.value == Join(selectList.value, ",\n ")
  {
    var colSel :- SelectDataframeColumn(source, selectList, "list");
    var names :- Iterate(colSel);
    Ok(Join(names, ",\n "))
  }

  /** `prepare_column_select_list` as written, over the as-written
      `select_dataframe_column`: it agrees with the corrected version on
      everything but a polars frame, which raises AttributeError. */
  function PrepareColumnSelectListAsWritten(source: Option<TP.DataFrame>, selectList: Option<seq<string>>): (r: Result<string>)
    ensures r.Ok? <==> source.Some? && source.value.kind == TP.Pandas &&
                       (selectList.None? || TP.SelectColumns(source.value, selectList.value).Ok?)
    ensures source.Some? && source.value.kind == TP.Polars &&
            (selectList.None? || TP.SelectColumns(source.value, selectList.value).Ok?) ==>
      r.Raise? && r.exception.AttributeError?
    ensures source.Some? && source.value.kind != TP.Polars ==> r == PrepareColumnSelectList(source, selectList)
  {
    var colSel :- SelectDataframeColumnAsWritten(source, selectList, "list");
    var names :- Iterate(colSel);
    Ok(Join(names, ",\n "))
  }

  function InsertArgs(tableName: string, columnNames: string, valueList: string): IT.InsertSlot -> string {
    (k: IT.InsertSlot) => match k
      case TableName => tableName
      case ColumnNames => columnNames
      case InsertValueList => valueList
      case _ => ""
  }

  /** The INSERT text `sql_insert` renders around a rendered VALUES list. */
  function InsertText(tableName: string, columnNames: string, valueList: string): (r: string)
    ensures r == IT.InsertInto + (tableName + (IT.OpenColumns + (columnNames +
                 (IT.ValuesOpen + (valueList + IT.ValuesClose)))))
  {
    var args := InsertArgs(tableName, columnNames, valueList);
    IT.StandardInsertText(args);
    Format(IT.StandardInsert, args)
  }

  /** `FromDataFrame`: a target table, its schema and the frame set last. */
  class FromDataFrame {
    var sourceDataframe: Option<TP.DataFrame>
    const targetTable: string
    const targetSchema: Option<string>

    /** A new builder has no frame yet. */
    constructor(targetTable: string, targetSchema: Option<string>)
      ensures this.targetTable == targetTable && this.targetSchema == targetSchema
      ensures sourceDataframe == None
    {
      this.targetTable := targetTable;
      this.targetSchema := targetSchema;
      sourceDataframe := None;
    }

    /** `set_df`: replaces the frame and returns the same builder. */
    method SetDf(newDataframe: Option<TP.DataFrame>) returns (self: FromDataFrame)
      modifies this
      ensures sourceDataframe == newDataframe
      ensures self == this
    {
      sourceDataframe := newDataframe;
      self := this;
    }

    /** `sql_insert`, given the rendered VALUES list. With a column selection
        the stored frame is first narrowed to those columns and stays
        narrowed; the target name gets its schema and the temp-table marker,
        and the header is the selected names joined by `",\n "`. */
    method SqlInsert(columnSelect: Option<seq<string>>, tempType: Option<string>, valueList: string) returns (r: Result<string>)
      modifies this
      ensures columnSelect.None? ==> sourceDataframe == old(sourceDataframe)
      ensures columnSelect.Some? && Subscript(old(sourceDataframe), columnSelect.value).Ok? ==>
        sourceDataframe == Subscript(old(sourceDataframe), columnSelect.value).value
      ensures columnSelect.Some? && Subscript(old(sourceDataframe), columnSelect.value).Raise? ==>
        sourceDataframe == old(sourceDataframe) && r.Raise?
      ensures r.Ok? <==> old(sourceDataframe).Some? && old(sourceDataframe).value.kind != TP.Other &&
                         (columnSelect.None? || TP.SelectColumns(old(sourceDataframe).value, columnSelect.value).Ok?)
      ensures r.Ok? ==> r.value == InsertText(TP.FormatTableName(targetTable, tempType, targetSchema).value,
                                              Join(sourceDataframe.value.columns, ",\n "), valueList)
    {
      if columnSelect.Some? {
        var narrowed := Subscript(sourceDataframe, columnSelect.value);
        if narrowed.Raise? {
          return Raise(narrowed.exception);
        }
        sourceDataframe := narrowed.value;
      }
      var targetTbl := TP.FormatTableName(targetTable, tempType, targetSchema).value;
      var getColumnHeader := PrepareColumnSelectList(sourceDataframe, columnSelect);
      if getColumnHeader.Raise? {
        return Raise(getColumnHeader.exception);
      }
      r := Ok(InsertText(targetTbl, getColumnHeader.value, valueList));
    }

    /** `sql_insert` as written: the header comes from the as-written
        `prepare_column_select_list`, so a polars frame raises AttributeError
        after the frame has been narrowed; otherwise it behaves as
        `SqlInsert`. */
    method SqlInsertAsWritten(columnSelect: Option<seq<string>>, tempType: Option<string>, valueList: string) returns (r: Result<string>)
      modifies this
      ensures columnSelect.None? ==> sourceDataframe == old(sourceDataframe)
      ensures columnSelect.Some? && Subscript(old(sourceDataframe), columnSelect.value).Ok? ==>
        sourceDataframe == Subscript(old(sourceDataframe), columnSelect.value).value
      ensures columnSelect.Some? && Subscript(old(sourceDataframe), columnSelect.value).Raise? ==>
        sourceDataframe == old(sourceDataframe) && r.Raise?
      ensures r.Ok? <==> old(sourceDataframe).Some? && old(sourceDataframe).value.kind == TP.Pandas &&
                         (columnSelect.None? || TP.SelectColumns(old(sourceDataframe).value, columnSelect.value).Ok?)
      ensures old(sourceDataframe).Some? && old(sourceDataframe).value.kind == TP.Polars &&
              (columnSelect.None? || TP.SelectColumns(old(sourceDataframe).value, columnSelect.value).Ok?) ==>
        r.Raise? && r.exception.AttributeError?
      ensures r.Ok? ==> r.value == InsertText(TP.FormatTableName(targetTable, tempType, targetSchema).value,
                                              Join(sourceDataframe.value.columns, ",\n "), valueList)
    {
      if columnSelect.Some? {
        var narrowed := Subscript(sourceDataframe, columnSelect.value);
        if narrowed.Raise? {
          return Raise(narrowed.exception);
        }
        sourceDataframe := narrowed.value;
      }
      var targetTbl := TP.FormatTableName(targetTable, tempType, targetSchema).value;
      var getColumnHeader := PrepareColumnSelectListAsWritten(sourceDataframe, columnSelect);
      if getColumnHeader.Raise? {
        return Raise(getColumnHeader.exception);
      }
      r := Ok(InsertText(targetTbl, getColumnHeader.value, valueList));
    }

    /** `sql_merge`: fails with TypeError when no frame with columns is set,
        and with the missing name when a join key is not a column (the
        discarded `prepare_column_select_list(df, join_keys)` call); otherwise
        it is the statement `Upsert.Merge` builds for the stored frame. */
    function SqlMerge(sourceTable: string, joinKeys: seq<string>, sourceSchema: Option<string>,
                      columnExclusion: Option<seq<string>>, tempType: Option<string>): (r: Result<string>)
      reads this
      ensures r.Ok? <==> sourceDataframe.Some? && sourceDataframe.value.kind != TP.Other &&
                         forall i :: 0 <= i < |joinKeys| ==> joinKeys[i] in sourceDataframe.value.columns
      ensures r.Ok? ==> r.value == Upsert.Merge(Upsert.Target(targetTable, targetSchema, sourceDataframe.value),
                                                sourceTable, joinKeys, sourceSchema, columnExclusion, tempType)
    {
      var targetName := TP.FormatTableName(targetTable, None, targetSchema).value;
      var sourceName := TP.FormatTableName(sourceTable, tempType, sourceSchema).value;
      var allColumns := SelectDataframeColumn(sourceDataframe, None, "list").value;
      var columns :- Iterate(allColumns);
      var _ :- PrepareColumnSelectList(sourceDataframe, Some(joinKeys));
      Ok(Upsert.MergeStatementText(targetName, sourceName, columns, joinKeys, Upsert.ExclusionList(columnExclusion)))
    }

    /** `sql_merge` as written: the column list comes from the as-written
        `select_dataframe_column`, so a stored polars frame raises
        AttributeError; with any other stored value it is `SqlMerge`. */
    function SqlMergeAsWritten(sourceTable: string, joinKeys: seq<string>, sourceSchema: Option<string>,
                               columnExclusion: Option<seq<string>>, tempType: Option<string>): (r: Result<string>)
      reads this
      ensures sourceDataframe.Some? && sourceDataframe.value.kind == TP.Polars ==>
        r.Raise? && r.exception.AttributeError?
      ensures sourceDataframe.None? || sourceDataframe.value.kind != TP.Polars ==>
        r == SqlMerge(sourceTable, joinKeys, sourceSchema, columnExclusion, tempType)
    {
      var targetName := TP.FormatTableName(targetTable, None, targetSchema).value;
      var sourceName := TP.FormatTableName(sourceTable, tempType, sourceSchema).value;
      var allColumns :- SelectDataframeColumnAsWritten(sourceDataframe, None, "list");
      var columns :- Iterate(allColumns);
      var _ :- PrepareColumnSelectListAsWritten(sourceDataframe, Some(joinKeys));
      Ok(Upsert.MergeStatementText(targetName, sourceName, columns, joinKeys, Upsert.ExclusionList(columnExclusion)))
    }
  }

  /** Narrowing by `sql_insert` is visible to a later `sql_merge`: once a
      column selection has been inserted, the MERGE covers only the selected
      columns, so the columns left out are no longer updated or inserted.
      This runs the corrected builders; for a pandas frame the as-written
      ones agree with them (`SqlInsertAsWritten`, `SqlMergeAsWritten`). */
  method InsertNarrowsLaterMerge(kind: TP.FrameKind, columns: seq<string>, selection: seq<string>,
                                 joinKeys: seq<string>, targetTable: string, sourceTable: string, valueList: string)
    returns (before: Result<string>, after: Result<string>)
    requires kind != TP.Other
    requires forall i :: 0 <= i < |selection| ==> selection[i] in columns
    requires forall i :: 0 <= i < |joinKeys| ==> joinKeys[i] in selection
    ensures before == Ok(Upsert.Merge(Upsert.Target(targetTable, None, TP.DataFrame(kind, columns)),
                                      sourceTable, joinKeys, None, None, None))
    ensures after == Ok(Upsert.Merge(Upsert.Target(targetTable, None, TP.DataFrame(kind, selection)),
                                     sourceTable, joinKeys, None, None, None))
  {
    var builder := new FromDataFrame(targetTable, None);
    var _ := builder.SetDf(Some(TP.DataFrame(kind, columns)));
    assert forall i :: 0 <= i < |joinKeys| ==> joinKeys[i] in columns;
    before := builder.SqlMerge(sourceTable, joinKeys, None, None, None);
    var _ := builder.SqlInsert(Some(selection), None, valueList);
    after := builder.SqlMerge(sourceTable, joinKeys, None, None, None);
  }
}
