/** The catalog records the SQLAlchemy inspector hands to the DDL and
    SELECT builders. */
module Catalog {
  import opened Runtime

  /** A column: its name, the class name of its SQL type, and the
      `autoincrement` entry (a flag, or a string such as `'auto'`). */
  datatype ColumnInfo = ColumnInfo(name: string, typeName: string, autoincrement: Value)

  /** A foreign key: its constraint name (possibly missing), the local
      columns, and the referred schema, table and columns. */
  datatype ForeignKeyInfo = ForeignKeyInfo(
    name: Option<string>,
    constrainedColumns: seq<string>,
    referredSchema: Option<string>,
    referredTable: string,
    referredColumns: seq<string>)
}
