/** The annotations of the first generation (namespace DBLib.Attributes).
    Attribute instances are created once, by the runtime, from the annotation text;
    their get-only `Name`/`DataType` and the flags given as named arguments are fixed
    from then on, so they are values here. */
module DbLibAttributes {
  import opened Common
  import opened Strings

  /** The `System.Data.DbType` members a column may declare; only `Boolean` changes how SQL is written. */
  datatype DbType =
    | AnsiString | Binary | Boolean | Byte | Currency | Date | DateTime | Decimal
    | Double | Guid | Int16 | Int32 | Int64 | Single | String | Time | Xml

  /** `[Column(name, dataType, PrimaryKey = .., AutoIncrement = ..)]`. */
  datatype ColumnAttribute = ColumnAttribute(name: string, dataType: DbType, primaryKey: bool, autoIncrement: bool)

  /** `[Table(name)]`; `Version` and `MultiPrimaryKey` are settable but read nowhere.
      A null name is rendered as empty text wherever it is used, so it is the empty string here. */
  datatype TableAttribute = TableAttribute(name: string, version: int, multiPrimaryKey: bool)

  /** The validating constructor, followed by the named-argument flags (both default to false).
      A null (`None`), empty or all-white-space name is rejected. */
  function NewColumnAttribute(name: Option<string>, dataType: DbType,
                              primaryKey: bool := false, autoIncrement: bool := false): (r: Result<ColumnAttribute>)
    ensures r.Ok? <==> !IsNullOrWhiteSpace(name)
    ensures r.Err? ==> r.error == InvalidColumnName
    ensures r.Ok? ==> r.value.name == name.value && r.value.dataType == dataType
    ensures r.Ok? ==> r.value.primaryKey == primaryKey && r.value.autoIncrement == autoIncrement
  {
    if IsNullOrWhiteSpace(name) then Err(InvalidColumnName)
    else Ok(ColumnAttribute(name.value, dataType, primaryKey, autoIncrement))
  }

  /** Every column attribute that construction lets through carries a usable column name. */
  lemma ConstructedNamesAreUsable(name: Option<string>, dataType: DbType, primaryKey: bool, autoIncrement: bool)
    requires NewColumnAttribute(name, dataType, primaryKey, autoIncrement).Ok?
    ensures var c := NewColumnAttribute(name, dataType, primaryKey, autoIncrement).value;
            |c.name| > 0 && exists i :: 0 <= i < |c.name| && !IsWhiteSpace(c.name[i])
  {
  }

  /** `new TableAttribute(name)`: Version 0, MultiPrimaryKey false. */
  function NewTableAttribute(name: string): (r: TableAttribute)
    ensures r.name == name && r.version == 0 && !r.multiPrimaryKey
  {
    TableAttribute(name, 0, false)
  }
}
