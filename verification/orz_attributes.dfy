/** The annotations of the second generation (namespace ORZ). Attribute instances are built
    once by the runtime from the annotation text (constructor, then named-argument setters),
    so they are values here; a named argument is a datatype update of the constructed value. */
module OrzAttributes {
  import opened Common
  import opened Values

  /** `[Column]`, `[Column(name)]`, `[IgnoreColumn]` with their settable flags.
      A null `Name` is `None`; `DefaultValue` is carried but read by no SQL builder. */
  datatype ColumnAttribute = ColumnAttribute(
    name: Option<string>,
    primaryKey: bool,
    autoIncrement: bool,
    defaultValue: Value,
    ignore: bool)

  /** `new ColumnAttribute()`: every property at its default. */
  function NewColumnAttribute(): ColumnAttribute
  {
    ColumnAttribute(None, false, false, Null, false)
  }

  /** `new ColumnAttribute(name)`: the name as given (a null argument stays null). */
  function NamedColumnAttribute(name: Option<string>): ColumnAttribute
  {
    NewColumnAttribute().(name := name)
  }

  /** `new IgnoreColumnAttribute()`: the base constructor, then `Ignore = true`. */
  function IgnoreColumnAttribute(): ColumnAttribute
  {
    NewColumnAttribute().(ignore := true)
  }

  /** `[Table(..)]`; both properties are get-only, so fixed by the constructor. `None` is null. */
  datatype TableAttribute = TableAttribute(tableName: Option<string>, dbName: Option<string>)

  /** `new TableAttribute(tableName)`: the table lives in the database registered as "default". */
  function NewTableAttribute(tableName: Option<string>): TableAttribute
  {
    TableAttribute(tableName, Some("default"))
  }

  /** `new TableAttribute(dbName, tableName)`: note the database name comes first. */
  function NewTableAttributeIn(dbName: Option<string>, tableName: Option<string>): TableAttribute
  {
    TableAttribute(tableName, dbName)
  }

  /** `[Column(null)]` is `[Column]`; a name is the only thing the one-argument constructor sets;
      every flag starts false and the default value null; `[IgnoreColumn]` is `[Column]` with
      `Ignore` set and nothing else changed. */
  lemma ColumnConstructors(name: Option<string>)
    ensures NamedColumnAttribute(None) == NewColumnAttribute()
    ensures NamedColumnAttribute(name).name == name && NamedColumnAttribute(name).(name := None) == NewColumnAttribute()
    ensures var c := NewColumnAttribute();
            c.name.None? && !c.primaryKey && !c.autoIncrement && c.defaultValue == Null && !c.ignore
    ensures IgnoreColumnAttribute().ignore && IgnoreColumnAttribute().(ignore := false) == NewColumnAttribute()
  {
  }

  /** The one-argument `[Table]` is the two-argument one with database "default"; the two-argument
      one keeps both names as given, null included. */
  lemma TableConstructors(tableName: Option<string>, dbName: Option<string>)
    ensures NewTableAttribute(tableName) == NewTableAttributeIn(Some("default"), tableName)
    ensures NewTableAttributeIn(dbName, tableName).tableName == tableName
            && NewTableAttributeIn(dbName, tableName).dbName == dbName
  {
  }
}
