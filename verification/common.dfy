/** Shared result types: the exceptions the library throws become values. */
module Common {

  datatype Option<+T> = None | Some(value: T)

  /** One constructor per exception the modelled code can raise. */
  datatype Error =
    | MissingColumnAttribute(typeName: string)   // ArgumentException: no property carries a ColumnAttribute
    | MissingTableAttribute(typeName: string)    // ArgumentException: not exactly one TableAttribute
    | InvalidColumnName                          // ArgumentException("name") from the DBLib ColumnAttribute
    | UnknownDatabase(dbName: string)            // ArgumentException: DBName is not a key of DB.Databases
    | NullKey                                    // ArgumentNullException: dictionary lookup with a null key
    | NoPrimaryKey(tableName: string)            // ArgumentException: UPDATE/DELETE without a usable key
    | NullArgument(paramName: string)            // ArgumentNullException thrown by DB.Open
    | RemoveOutOfRange                           // ArgumentOutOfRangeException: StringBuilder.Remove on an empty builder
    | InvalidCast                                // InvalidCastException: (bool) cast of a non-boolean value
    | ConversionFailed(columnName: string)       // the type converter threw for this column
    | ColumnNotInRow(columnName: string)         // ArgumentException: DataRow[name] for an absent column
    | SequenceEmpty                              // InvalidOperationException: Enumerable.First on an empty list
    | NullReference                              // NullReferenceException
    | ConnectionFailed                           // the driver could not open the connection

  datatype Result<+T> = Ok(value: T) | Err(error: Error)
}
