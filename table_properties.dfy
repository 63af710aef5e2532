/** Table-name formatting and column-list rendering
    (keepitsql/core/table_properties.py). A dataframe is its ordered column
    names plus the library it comes from. */
module TableProperties {
  import opened Runtime
  import opened Strings

  /** Where a dataframe object comes from. `Other` is any object that is
      neither a pandas nor a polars `DataFrame`. */
  datatype FrameKind = Pandas | Polars | Other

  datatype DataFrame = DataFrame(kind: FrameKind, columns: seq<string>)

  /** What `select_dataframe_column` hands back: a frame, a list of names,
      or (for an unrecognised object) a string. */
  datatype Selection = Frame(frame: DataFrame) | Names(names: seq<string>) | Text(text: string)

  const UnknownType := "Unknown type"
  const OutputTypeMessage := "output_type must be 'df' or 'list'."

  /** `df[names]`: a frame restricted to `names`, in that order; a name the
      frame does not have raises. Objects of other kinds are taken not to
      support indexing by a list. */
  function SelectColumns(df: DataFrame, names: seq<string>): (r: Result<DataFrame>)
    ensures df.kind != Other ==>
      (r.Ok? <==> forall i :: 0 <= i < |names| ==> names[i] in df.columns)
    ensures r.Ok? ==> r.value == DataFrame(df.kind, names)
    ensures r.Raise? && df.kind != Other ==>
      r.exception.MissingColumn? && r.exception.name in names && r.exception.name !in df.columns
  {
    if df.kind == Other then Raise(TypeError("object is not subscriptable"))
    else
      var missing := Filter(names, n => n !in df.columns);
      if missing == [] then
        assert forall i :: 0 <= i < |names| ==> names[i] in df.columns by {
          forall i | 0 <= i < |names| ensures names[i] in df.columns {
            assert names[i] !in missing;
          }
        }
        Ok(DataFrame(df.kind, names))
      else
        assert missing[0] in missing;
        Raise(MissingColumn(missing[0]))
  }

  /** `select_dataframe_column(df, select_list, output_type)`: the selection
      happens first, so an unknown column wins over a bad `output_type`. */
  function SelectDataframeColumn(df: DataFrame, selectList: Option<seq<string>>, outputType: string): (r: Result<Selection>)
    ensures selectList.None? && outputType == "list" ==>
      r == Ok(if df.kind == Other then Text(UnknownType) else Names(df.columns))
    ensures selectList.Some? && outputType == "list" && SelectColumns(df, selectList.value).Ok? ==>
      r == Ok(if df.kind == Other then Text(UnknownType) else Names(selectList.value))
    ensures selectList.None? && outputType == "df" ==> r == Ok(Frame(df))
    ensures selectList.Some? && outputType == "df" && SelectColumns(df, selectList.value).Ok? ==>
      r == Ok(Frame(SelectColumns(df, selectList.value).value))
    ensures outputType != "list" && outputType != "df" ==> r.Raise?
    ensures outputType != "list" && outputType != "df" &&
            (selectList.None? || SelectColumns(df, selectList.value).Ok?) ==>
      r == Raise(ValueError(OutputTypeMessage))
    ensures selectList.Some? && SelectColumns(df, selectList.value).Raise? ==>
      r == Raise(SelectColumns(df, selectList.value).exception)
  {
    var selected :- if selectList.Some? then SelectColumns(df, selectList.value) else Ok(df);
    if outputType == "list" then
      match selected.kind
      case Pandas => Ok(Names(selected.columns))  // `columns.tolist()`
      case Polars => Ok(Names(selected.columns))  // `columns`
      case Other => Ok(Text(UnknownType))
    else if outputType == "df" then Ok(Frame(selected))
    else Raise(ValueError(OutputTypeMessage))
  }

  /** What iterating over a list-mode selection yields: the names, or the
      characters of a string. */
  function Elements(s: Selection): (r: seq<string>)
    ensures s.Names? ==> r == s.names
    ensures s.Text? ==> r == Characters(s.text)
  {
    match s
    case Names(names) => names
    case Text(text) => Characters(text)
    case Frame(df) => df.columns
  }

  /** The column list the statement builders iterate over: the frame's
      columns in frame order, or, for an object of another kind, the twelve
      characters of `"Unknown type"`. */
  function ColumnList(df: DataFrame): (r: seq<string>)
    ensures df.kind != Other ==> r == df.columns
    ensures df.kind == Other ==> |r| == 12 && forall i :: 0 <= i < 12 ==> r[i] == [UnknownType[i]]
  {
    var sel := SelectDataframeColumn(df, None, "list");
    Elements(sel.value)
  }

  /** `prepare_column_select_list(df, select_list)`: the selected names
      joined by `",\n "`. */
  function PrepareColumnSelectList(df: DataFrame, selectList: Option<seq<string>>): (r: Result<string>)
    ensures r.Ok? <==> selectList.None? || SelectColumns(df, selectList.value).Ok?
    ensures df.kind != Other && selectList.None? ==> r == Ok(Join(df.columns, ",\n "))
    ensures df.kind != Other && selectList.Some? && r.Ok? ==> r == Ok(Join(selectList.value, ",\n "))
    ensures df.kind == Other && r.Ok? ==> r == Ok(Join(Characters(UnknownType), ",\n "))
  {
    var sel :- SelectDataframeColumn(df, selectList, "list");
    Ok(Join(Elements(sel), ",\n "))
  }

  /** An empty selection renders as the empty string. */
  lemma EmptySelectionRendersEmpty(kind: FrameKind, columns: seq<string>)
    requires kind != Other
    ensures PrepareColumnSelectList(DataFrame(kind, columns), Some([])) == Ok("")
  {
  }

  /** The MSSQL temporary-table markers: only `local` and `global` have one. */
  function TempMarker(tempTableType: Option<string>): (r: Option<string>)
    ensures r == Some("#") <==> tempTableType == Some("local")
    ensures r == Some("##") <==> tempTableType == Some("global")
    ensures r.None? <==> tempTableType != Some("local") && tempTableType != Some("global")
  {
    if tempTableType == Some("local") then Some("#")
    else if tempTableType == Some("global") then Some("##")
    else None
  }

  /** `format_table_name(table_name, temp_table_type, schema_name)`. The
      `ValueError` inside the temp-type branch is kept as written; the
      contract shows that it is never raised. */
  function FormatTableName(tableName: string, tempTableType: Option<string>, schemaName: Option<string>): (r: Result<string>)
    ensures r.Ok?
    ensures r.value == (if Present(schemaName) then schemaName.value + "." else "")
                       + (if TempMarker(tempTableType).Some? then TempMarker(tempTableType).value else "")
                       + tableName
  {
    var schemaPrefix := if Present(schemaName) then schemaName.value + "." else "";
    if TempMarker(tempTableType).Some? then
      if TempMarker(tempTableType).None? then
        Raise(ValueError("The MSSQL temp table type must be 'global' or 'local'"))
      else Ok(schemaPrefix + TempMarker(tempTableType).value + tableName)
    else Ok(schemaPrefix + tableName)
  }

  /** Without schema and temp type the name comes back unchanged. */
  lemma FormatTableNamePlain(tableName: string)
    ensures FormatTableName(tableName, None, None) == Ok(tableName)
    ensures FormatTableName(tableName, None, Some("")) == Ok(tableName)
  {
    assert "" + tableName == tableName;
  }

  /** A present schema prefixes `schema.` to whatever the rest renders, so
      the schema stands before any temp marker. */
  lemma FormatTableNameSchema(tableName: string, tempTableType: Option<string>, schema: string)
    requires schema != ""
    ensures FormatTableName(tableName, tempTableType, Some(schema)).value
         == schema + "." + FormatTableName(tableName, tempTableType, None).value
  {
  }

  /** `local` marks the name with `#`, `global` with `##`. */
  lemma FormatTableNameTemp(tableName: string)
    ensures FormatTableName(tableName, Some("local"), None) == Ok("#" + tableName)
    ensures FormatTableName(tableName, Some("global"), None) == Ok("##" + tableName)
    ensures FormatTableName(tableName, Some("global"), Some("dbo")) == Ok("dbo.##" + tableName)
  {
    assert TempMarker(Some("local")) == Some("#");
    assert TempMarker(Some("global")) == Some("##");
    assert "" + "#" + tableName == "#" + tableName;
    assert "" + "##" + tableName == "##" + tableName;
    assert "dbo" + "." + "##" + tableName == "dbo.##" + tableName;
  }

  /** Any temp type other than `local` and `global` is ignored, as `None` is. */
  lemma FormatTableNameOtherTemp(tableName: string, tempTableType: string, schemaName: Option<string>)
    requires tempTableType != "local" && tempTableType != "global"
    ensures FormatTableName(tableName, Some(tempTableType), schemaName)
         == FormatTableName(tableName, None, schemaName)
  {
  }
}
