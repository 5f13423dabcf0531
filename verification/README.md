# DbLib.Net core in Dafny

DbLib.Net is a small C# object–relational helper in two generations.

- **DBLib** (namespace `DBLib`) maps annotated classes onto tables. A class carries
  `[Table(name)]` and its properties carry `[Column(name, DbType, PrimaryKey = .., AutoIncrement = ..)]`.
  `AttributeFunc` reads these annotations by reflection and builds:
  - literal `insert into` and `UPDATE` text;
  - `@name` parameterised INSERT and UPDATE text, with its parameter arrays;
  - a JSON-like dump.
  It also maps `DataTable` rows back onto fresh models. `DbMaster` uses `AttributeFunc` for
  batch inserts and updates (a list of literal statements, or one parameterised statement
  repeated per model) and for `QueryModelList`, which builds a SELECT over the mapped columns.
- **ORZ** (namespace `ORZ`) is convention-based. Every public property is a column unless
  `[IgnoreColumn]` says otherwise; `[Column]` may rename it or mark it as a key.
  `[Table(dbName, tableName)]` routes the model to a database in the static registry `DB.Databases`.
  - `DBModel` builds parameterised INSERT, UPDATE and DELETE statements and executes them,
    answering `true` exactly when one row was affected.
  - `ModelFactory` maps rows back through a case-insensitive column dictionary.
  - `DB.Open` registers and configures databases; `DB.ListDatabases` prints the registry.

## How the model is organised

- `common.dfy`: `Option`, `Result` and the errors that stand for thrown exceptions.
- `strings.dfy`: builder idioms as functions, white space, ASCII case folding and decimal rendering.
  - The idioms are: items joined by a separator, items each followed or preceded by a
    separator, and the removal of the first or last separator.
- `values.dfy`: the values the properties hold, a model instance, the number test, and `DataTable`.
  - A model instance is a map from property name to value; a property it does not mention reads as null.
  - The number test approximates what `double.TryParse` accepts (see Left out).
- `dblib_attributes.dfy`, `attribute_func.dfy`, `db_master.dfy`: DBLib.
- `dblib_example.dfy`: the sample `Model.ForTest()` and the two texts its unit tests expect.
- `orz_attributes.dfy`, `db_model.dfy`, `model_factory.dfy`, `db.dfy`: ORZ.

How the C# constructs are represented:

- **Reflection** becomes data. A type is a `ModelType` holding its table attributes and its
  properties in declaration order, each property with its column attributes.
- **`Dictionary<PropertyInfo, ColumnAttribute>`** becomes the sequence of entries in insertion
  order, which is the order `foreach` visits them.
- **Exceptions** become `Err` values.
- **Loops** over a builder become methods. Each is proved equal to a specification function,
  and the properties are proved about that function.
- **The static registry** is the `Db.Registry` class; every database is a `Db` object whose
  provider and connection string `Open` updates in place.
- **The driver** is a parameter. This covers opening a connection, executing a statement,
  and the data set a query returns.
- **Converters** are a parameter: `Convert.ChangeType` and `ConvertTool.ChangeType` are a
  function that may fail.

Where the code and its documentation disagree, the model follows the code:

- Literal insert of a model with no kept column throws, because `Remove` runs on an empty builder.
- The DBLib literal UPDATE has no `WHERE` clause when there is no primary key.
- `QueryModelList` returns null when the query produces no table.
- ORZ lets a later property with the same column name overwrite an earlier one in the
  column dictionary.
- ORZ `Delete` matches on every column when the model has no primary key.
- The ORZ UPDATE and DELETE builders add a parameter for every column, auto-increment keys
  included; INSERT adds one only for the columns it names.

## Model

| member | source | states |
|---|---|---|
| DbLibAttributes.NewColumnAttribute | DBLib/Attributes/ColumnAttribute.cs:30-35 | construction succeeds exactly when the name is neither null nor white space (otherwise `InvalidColumnName`); the attribute keeps the name, the type and the two flags |
| DbLibAttributes.ConstructedNamesAreUsable | DBLib/Attributes/ColumnAttribute.cs:32 | every attribute construction lets through has a non-empty name with a non-white-space character |
| DbLibAttributes.NewTableAttribute | DBLib/Attributes/TableAttribute.cs:17-20 | the table attribute keeps its name; `Version` is 0 and `MultiPrimaryKey` false |
| AttributeFunc.ColumnEntriesExactly | DBLib/Attributes/AttributeFunc.cs:45-54 | an entry is in the column dictionary exactly when its property is declared on the type, carries exactly one `[Column]`, and is paired with that attribute |
| AttributeFunc.ColumnEntriesStep | DBLib/Attributes/AttributeFunc.cs:49-53 | visiting one more property appends its entry when it has exactly one `[Column]` and leaves the dictionary unchanged otherwise |
| AttributeFunc.NoEntriesIffNoneMapped | DBLib/Attributes/AttributeFunc.cs:56-63 | the dictionary is empty exactly when no property carries exactly one `[Column]` |
| AttributeFunc.GetColumnList | DBLib/Attributes/AttributeFunc.cs:21-40 | fails with the type's full name exactly when no property is mapped; otherwise returns the attributes of the mapped properties in declaration order |
| AttributeFunc.GetColumnDictionary | DBLib/Attributes/AttributeFunc.cs:45-64 | fails with the type's full name exactly when no property is mapped; otherwise returns the non-empty dictionary of mapped properties |
| AttributeFunc.GetTableAttribute | DBLib/Attributes/AttributeFunc.cs:69-78 | succeeds exactly when the type carries one `[Table]`, returning it; otherwise fails with the type's full name |
| AttributeFunc.LiteralRoundTrip | DBLib/Attributes/AttributeFunc.cs:116-126 | outside Boolean columns, stripping the quotes from a literal gives back the value's text, and the literal is bare exactly when that text parses as a number |
| AttributeFunc.BooleanLiteral | DBLib/Attributes/AttributeFunc.cs:119-122 | a boolean in a Boolean column is written as a bare number, so unquoting leaves it unchanged, and it is `1` exactly when the boolean is true |
| AttributeFunc.RenderFailsIffSome | DBLib/Attributes/AttributeFunc.cs:119-122 | rendering a list of entries fails exactly when one of them is a Boolean column holding a non-null, non-boolean value (the failing cast) |
| AttributeFunc.InsertEntriesExactly | DBLib/Attributes/AttributeFunc.cs:106-117 | literal insert keeps exactly the entries that are neither auto-increment primary keys nor null-valued |
| AttributeFunc.InsertListsAlign | DBLib/Attributes/AttributeFunc.cs:127-128 | the column list and the value list have one item per kept entry, position by position: the column's name and its literal |
| AttributeFunc.LiteralAt | DBLib/Attributes/AttributeFunc.cs:118-128 | when a list renders, each entry renders on its own and the k-th literal is that entry's literal |
| AttributeFunc.LiteralInsertStep | DBLib/Attributes/AttributeFunc.cs:106-130 | one iteration either skips the entry with both builders unchanged, fails the whole statement on a bad boolean, or appends the name and the literal, each followed by a comma |
| AttributeFunc.LiteralInsertFromBuilders | DBLib/Attributes/AttributeFunc.cs:131-134 | with no kept entry the trailing-comma removal fails (`RemoveOutOfRange`); otherwise the statement is the two builders without their last comma inside `insert into T (..) values (..);` |
| AttributeFunc.GetInsertSql | DBLib/Attributes/AttributeFunc.cs:102-135 | the builder loop produces exactly the specified literal INSERT, including its two failure cases |
| AttributeFunc.KeySplitExactly | DBLib/Attributes/AttributeFunc.cs:188-195 | the WHERE entries are exactly the primary keys, the SET entries exactly the others, and together they account for every entry |
| AttributeFunc.RenderableSplit | DBLib/Attributes/AttributeFunc.cs:167-184 | if the whole dictionary renders, so do its key part and its non-key part |
| AttributeFunc.UpdateBuildersStep | DBLib/Attributes/AttributeFunc.cs:162-196 | one iteration appends ` AND name = literal` to the condition for a key, or `, name = literal` to the assignments otherwise, and leaves the other builder unchanged |
| AttributeFunc.UpdateSqlFromBuilders | DBLib/Attributes/AttributeFunc.cs:197-204 | the statement is `UPDATE T SET ..` from the trimmed assignments, with ` WHERE ..` only when the trimmed condition is non-empty, then `;` |
| AttributeFunc.GetUpdateSql | DBLib/Attributes/AttributeFunc.cs:158-205 | the builder loop produces exactly the specified literal UPDATE, or the failing boolean cast |
| AttributeFunc.WithoutAutoKeysExactly | DBLib/Attributes/AttributeFunc.cs:219-232 | parameterised insert keeps exactly the entries that are not auto-increment primary keys |
| AttributeFunc.InsertParamsStep | DBLib/Attributes/AttributeFunc.cs:219-232 | one iteration skips an auto-increment key, or appends `name,` to the columns and `@name,` to the values |
| AttributeFunc.InsertParamsFromBuilders | DBLib/Attributes/AttributeFunc.cs:233-238 | the text is `INSERT INTO T (..) VALUES (..);` with the last comma removed from non-empty builders and empty lists left as they are |
| AttributeFunc.GetInsertSqlUseParameters | DBLib/Attributes/AttributeFunc.cs:214-239 | the builder loop produces exactly the specified parameterised INSERT |
| AttributeFunc.UpdateParamsStep | DBLib/Attributes/AttributeFunc.cs:253-265 | one iteration appends ` AND name = @name` to the condition for a key, or `, name = @name` to the assignments otherwise |
| AttributeFunc.UpdateParamsFromBuilders | DBLib/Attributes/AttributeFunc.cs:266-270 | the text is `UPDATE T SET .. WHERE ..;` with the leading separator removed from non-empty builders |
| AttributeFunc.GetUpdateSqlUseParameters | DBLib/Attributes/AttributeFunc.cs:248-271 | the builder loop produces exactly the specified parameterised UPDATE |
| AttributeFunc.ParamUpdateSplitsKeys | DBLib/Attributes/AttributeFunc.cs:253-265 | SET holds only non-key columns, every key is in WHERE, and together they hold one pair per entry |
| AttributeFunc.GetDbParameters | DBLib/Attributes/AttributeFunc.cs:280-292 | one parameter per entry, in order, named `@` + column name, with the column's type and the property's value |
| AttributeFunc.ParametersCoverPlaceholders | DBLib/Attributes/AttributeFunc.cs:280-291 | every `@name` placeholder of the parameterised INSERT has a parameter carrying that property's value; auto-increment keys still get a parameter although the INSERT does not use it |
| AttributeFunc.RowToModelFailsIff | DBLib/Attributes/AttributeFunc.cs:344-348 | mapping a row fails exactly when some mapped column is missing from the row or its cell does not convert to the property's type |
| AttributeFunc.AssignEntryEffect | DBLib/Attributes/AttributeFunc.cs:346-347 | a successful assignment reads the named column, stores its converted cell in the property, and changes no other property |
| AttributeFunc.RowToModelAssigns | DBLib/Attributes/AttributeFunc.cs:344-348 | after a successful mapping every mapped property holds the converted cell of its column |
| AttributeFunc.RowToModelKeeps | DBLib/Attributes/AttributeFunc.cs:339-350 | a property no entry maps keeps the value the constructor gave it |
| AttributeFunc.TransToModel | DBLib/Attributes/AttributeFunc.cs:339-351 | the assignment loop produces exactly the specified mapping, including the first failing assignment's error |
| AttributeFunc.TableToModelsRowByRow | DBLib/Attributes/AttributeFunc.cs:311-323 | a successful list has one model per row, the i-th being the mapping of the i-th row |
| AttributeFunc.TableToModelsStep | DBLib/Attributes/AttributeFunc.cs:316-320 | mapping one more row appends that row's model or ends with its error |
| AttributeFunc.TransToModelList | DBLib/Attributes/AttributeFunc.cs:311-323 | the row loop produces exactly the specified list, stopping at the first failing row |
| AttributeFunc.TransToModelListOf | DBLib/Attributes/AttributeFunc.cs:301-306 | a type without mapped properties fails with its full name; otherwise the list is mapped through its column dictionary |
| AttributeFunc.JsonValueQuoting | DBLib/Attributes/AttributeFunc.cs:379-395 | a value is written `null` exactly when it is null, and is quoted exactly when it is a string or its text is not a number |
| AttributeFunc.JsonBuilderStep | DBLib/Attributes/AttributeFunc.cs:372-396 | one iteration appends `"NAME"=value,` to the builder |
| AttributeFunc.JsonFromBuilder | DBLib/Attributes/AttributeFunc.cs:397-399 | dropping the builder's last comma (when there is more than `{`) and closing with `}` gives the dump |
| AttributeFunc.TransToJsonString | DBLib/Attributes/AttributeFunc.cs:368-400 | the builder loop produces exactly the specified dump |
| AttributeFunc.JsonAppend | DBLib/Attributes/AttributeFunc.cs:370-398 | the empty dump is `{}`; dumping one more entry replaces the closing `}` of the previous dump by that entry's `"NAME"=value` pair (after a comma when the dump already held a pair) and closes again |
| DbLibExample.SampleColumnsConstruct | DBLib/Model.cs:13-25 | the sample's `ID` and `CITIZEN` annotations pass the constructor's name check |
| DbLibExample.SampleTextsAreNotNumeric | DBLib/Model.cs:31-42 | of the sample values, `example`, the date and `True` do not parse as numbers |
| DbLibExample.SampleEntries | DBLib/Model.cs:10-29 | the sample's dictionary holds all six properties in declaration order |
| DbLibExample.SampleInsertEntries | DBLib/Model.cs:13-40 | literal insert of the sample skips the auto-increment `ID` and the null `DESCRIBE` |
| DbLibExample.SampleInsertText | DbLibUnitTest/AttributeFuncTest.cs:14-16 | the literal INSERT of the sample is `insert into Model (NAME,BIRTHDAY,AGE,CITIZEN) values ('example','1989-02-18 00:00:00',28,1);` |
| DbLibExample.SampleJsonText | DbLibUnitTest/AttributeFuncTest.cs:24-26 | the dump of the sample is `{"ID"=1,"NAME"="example","BIRTHDAY"="1989-02-18 00:00:00","AGE"=28,"CITIZEN"="True","DESCRIBE"=null}` |
| DbMaster.ExecuteInsert | DBLib/DbMaster.cs:152-162 | fails when the connection does not open; otherwise answers the provider's last inserted id when a row was affected and -1 otherwise |
| DbMaster.SelectCondition | DBLib/DbMaster.cs:297-305 | a null or white-space condition leaves the SELECT unchanged; any other condition is appended after one space |
| DbMaster.SelectColumnsAppend | DBLib/DbMaster.cs:297-303 | one more mapped column inserts its name into the previous SELECT just before ` FROM `, after a comma when there were columns already |
| DbMaster.BuildSelect | DBLib/DbMaster.cs:297-305 | the builder loop produces exactly the specified SELECT text |
| DbMaster.QueryModelList | DBLib/DbMaster.cs:291-314 | the query result is exactly the specified one: metadata errors, connection failure, null when no table, or the first table's rows mapped |
| DbMaster.QueryResultShape | DBLib/DbMaster.cs:307-313 | the result is null exactly when the data set has no table; otherwise there is one model per row of the first table, each that row's mapping |
| DbMaster.StatementsOkIff | DBLib/DbMaster.cs:180-184 | building the statement list succeeds exactly when every model's statement builds |
| DbMaster.StatementsOnePerModel | DBLib/DbMaster.cs:180-184 | a successful list has one statement per model, the i-th built from the i-th model |
| DbMaster.LiteralBatchShape | DBLib/DbMaster.cs:172-189 | an empty list is skipped exactly when it is empty; a script needs one `[Table]`, an open connection, and holds one statement per model, each that model's INSERT or UPDATE |
| DbMaster.BuildStatements | DBLib/DbMaster.cs:180-184 | the loop produces exactly the specified statement list, stopping at the first failing model |
| DbMaster.LiteralModelList | DBLib/DbMaster.cs:172-189 | the literal batch is exactly the specified one |
| DbMaster.InsertModelList | DBLib/DbMaster.cs:172-189 | the batch insert is exactly the specified literal batch of INSERT statements |
| DbMaster.UpdateModelList | DBLib/DbMaster.cs:211-228 | the batch update is exactly the specified literal batch of UPDATE statements |
| DbMaster.LargeAmountInsertOrUpdate | DBLib/DbMaster.cs:253-283 | an empty list is skipped; otherwise one parameter set per model runs the same statement, or the connection failure is reported |
| DbMaster.ParameterisedBatchShape | DBLib/DbMaster.cs:197-204 | an empty list fails at `First()` (unlike the literal batch, which skips it); a successful batch has one parameter set per model, each that model's parameters |
| DbMaster.ParameterisedModelList | DBLib/DbMaster.cs:197-204 | the parameterised batch is exactly the specified one |
| DbMaster.InsertModelListUseParameter | DBLib/DbMaster.cs:197-204 | the parameterised batch insert is exactly the specified batch for the INSERT text |
| DbMaster.UpdateModelListUseParameter | DBLib/DbMaster.cs:236-243 | the parameterised batch update is exactly the specified batch for the UPDATE text |
| DbModel.GetTableInfo | ORZ/DBModel.cs:19-41 | a table description is only ever produced for a registered database |
| OrzAttributes.ColumnConstructors | ORZ/Attributes/ColumnAttribute.cs:32-45 | `[Column(null)]` is `[Column]`; the one-argument constructor sets only the name; every flag starts false and the default value null; `[IgnoreColumn]` is `[Column]` with `Ignore` set and nothing else |
| OrzAttributes.TableConstructors | ORZ/Attributes/TableAttribute.cs:21-31 | the one-argument `[Table]` is the two-argument one with database `default`; the two-argument one keeps both names as given, null included |
| DbModel.TableInfoDefaults | ORZ/DBModel.cs:19-40 | without `[Table]` the type's name in database `default`; with one, its table name or else the type's name, in its database (null is `NullKey`); an unregistered database fails |
| DbModel.DescribeDefaults | ORZ/DBModel.cs:63-79 | `[IgnoreColumn]` drops the property; an unannotated or unnamed property uses its own name with no key flags; `[Column(name)]` uses that name |
| DbModel.ColumnInfosExactly | ORZ/DBModel.cs:89-120 | the column list holds exactly the descriptions of the non-ignored properties, each carrying that property's current value |
| DbModel.ColumnInfosConcat | ORZ/DBModel.cs:95-117 | the column list of two runs of properties is the concatenation of their lists |
| DbModel.GetColumnInfos | ORZ/DBModel.cs:89-120 | the loop produces exactly the specified column list |
| DbModel.ColumnDictKeys | ORZ/DBModel.cs:56-83 | a key is in the case-insensitive dictionary exactly when some non-ignored property's column name folds to it |
| DbModel.ColumnDictLastWins | ORZ/DBModel.cs:80 | each key maps to the description of the last property whose column name folds to it |
| DbModel.GetColumnDict | ORZ/DBModel.cs:56-83 | the loop produces exactly the specified dictionary |
| DbModel.InsertColumnsExactly | ORZ/DBModel.cs:136-138 | INSERT keeps exactly the columns that are not auto-increment primary keys |
| DbModel.InsertAligned | ORZ/DBModel.cs:136-148 | names, placeholders and parameters align position by position: placeholder `@name`, parameter named by the placeholder and carrying the column's value |
| DbModel.InsertBuildersStep | ORZ/DBModel.cs:136-145 | one iteration skips an auto-increment key or appends `,name`, `,@name` and its parameter |
| DbModel.InsertFromBuilders | ORZ/DBModel.cs:146-149 | the statement is `INSERT INTO T (..) VALUES (..);` with the leading comma removed from non-empty builders |
| DbModel.GetInsertSql | ORZ/DBModel.cs:129-150 | the loop produces exactly the specified INSERT statement and its parameters |
| DbModel.KeyInfosExactly | ORZ/DBModel.cs:164-167 | the condition columns are exactly the primary keys |
| DbModel.NonKeyInfosExactly | ORZ/DBModel.cs:168-171 | the assigned columns are exactly the non-keys |
| DbModel.KeySplit | ORZ/DBModel.cs:162-171 | keys and non-keys together account for every column; with no key every column is a non-key |
| DbModel.StatementErrors | ORZ/DBModel.cs:155-225 | UPDATE fails exactly when there is no primary key; DELETE only when there is no column at all, and with no key it matches on every column; both pass a parameter for every column |
| DbModel.BuildersStep | ORZ/DBModel.cs:162-171 | one iteration appends ` AND name=@name` to the condition for a key, or the separator and `name=@name` to the other builder |
| DbModel.UpdateFromBuilders | ORZ/DBModel.cs:177-181 | an empty condition fails with the table name; otherwise `UPDATE T SET .. WHERE ..;` from the trimmed builders |
| DbModel.DeleteFromBuilders | ORZ/DBModel.cs:210-224 | the key condition when there is one, else the all-columns condition, else failure with the table name |
| DbModel.GetUpdateSql | ORZ/DBModel.cs:155-182 | the loop produces exactly the specified UPDATE statement or its failure |
| DbModel.GetDeleteSql | ORZ/DBModel.cs:187-225 | the loop produces exactly the specified DELETE statement or its failure |
| DbModel.OutcomeRule | ORZ/DBModel.cs:235-289 | the operation fails only when the table description fails; it answers true exactly when the statement builds and affects exactly one row; UPDATE without a key answers false |
| DbModel.Execute | ORZ/DBModel.cs:235-289 | the shared body of the three operations produces exactly the specified outcome |
| DbModel.Insert | ORZ/DBModel.cs:235-249 | `Insert` is the specified outcome for INSERT against the registered databases |
| DbModel.Update | ORZ/DBModel.cs:255-269 | `Update` is the specified outcome for UPDATE against the registered databases |
| DbModel.Delete | ORZ/DBModel.cs:275-289 | `Delete` is the specified outcome for DELETE against the registered databases |
| ModelFactory.ToModelFailsIff | ORZ/ModelFactory.cs:21-33 | mapping fails exactly when a known, non-DBNull cell does not convert |
| ModelFactory.ToModelKeepsUntargeted | ORZ/ModelFactory.cs:19-34 | a property no assigned column targets keeps the constructor's value |
| ModelFactory.ToModelAssigns | ORZ/ModelFactory.cs:21-33 | an assigned column that no later column overrides leaves its converted cell in its property |
| ModelFactory.ToModel | ORZ/ModelFactory.cs:17-35 | the column loop produces exactly the specified mapping |
| ModelFactory.ToModelOf | ORZ/ModelFactory.cs:41-45 | the row is mapped through the type's column dictionary |
| ModelFactory.ModelsOfRowByRow | ORZ/ModelFactory.cs:51-59 | a successful list has one model per row, the k-th mapped from the k-th row |
| ModelFactory.ToModelList | ORZ/ModelFactory.cs:51-60 | the row loop, with the dictionary computed once, produces exactly the specified list |
| Strings.FoldCaseSameKeyIff | ORZ/DBModel.cs:60 | two column names get the same dictionary key exactly when they have the same length and agree character by character up to ASCII case |
| Db.OpenStepRules | ORZ/DB.cs:32-44 | opening succeeds exactly when a provider is given, some connection string is present, and the connection opens; success stores both; a failure keeps the old connection string; the provider is stored unless the null-provider check fails |
| Db.Db.constructor | ORZ/DB.cs:30 | a new database has no provider and no connection string |
| Db.Db.Configure | ORZ/DB.cs:32-44 | the checks and assignments of `Open` change the database's state exactly as specified |
| Db.Registry.constructor | ORZ/DB.cs:17 | the registry starts empty |
| Db.Registry.Register | ORZ/DB.cs:28-30 | a known name returns its database unchanged; a new name registers a fresh, unconfigured database at the end |
| Db.Registry.Open | ORZ/DB.cs:26-46 | a null name fails with `NullKey`; otherwise the named database, registered if new, is configured as specified, and every other database is unchanged |
| Db.EntryLinesFailIff | ORZ/DB.cs:71-78 | listing the entries fails exactly when some registered database has no provider |
| Db.ListingShape | ORZ/DB.cs:65-82 | an empty registry lists as the header alone; otherwise the header, then one line per database, then the separator line |
| Db.ListEntries | ORZ/DB.cs:65-82 | the loop produces exactly the specified listing |
| Db.Registry.ListDatabases | ORZ/DB.cs:65-82 | the registry's listing is the specified listing of its entries in registration order |
| Db.FailedOpenPoisonsListing | ORZ/DB.cs:30-33 | an `Open` that fails on a null provider still registers the database, and the listing then fails |

## Left out

- `double.TryParse` is the concrete `Values.IsNumeric` test: white space, a sign, digits with `,` group separators, a `.` fraction, and an exponent. `NaN`, `Infinity`, culture-specific symbols and the range limit of `double` are not modelled.
- `StringComparer.OrdinalIgnoreCase` folds ASCII letters only.
- DbModel.ColumnDict: files each description under the folded key, while the C# dictionary keeps the spelling of the first name inserted under that key. Lookups agree; the spelling of the keys themselves is not modelled.
- `DataRow[name]` falls back to a case-insensitive column lookup. `AttributeFunc.TransToModel` looks names up exactly.
- `DateTime.ToString` depends on the culture. A value carries the text it renders to, and the sample's date is given as `1989-02-18 00:00:00`.
- `Convert.ChangeType` and `ConvertTool.ChangeType` are a parameter; ORZ/Common/ConvertTool.cs is not part of this model.
- Executing statements, transactions, rollback, `DbDataAdapter.Fill` and `Provider.GetLastInsertedId` belong to the driver. Each is a parameter: whether the connection opens, the rows affected, the tables returned.
- The `DbMaster` constructor, its connection-string builder and `ExecuteNonQuery`/`ExecuteDataSet`/`ExecuteReader`/`ExecuteScalar` only call the driver, so they are not modelled.
- `InsertModelList` and the two parameterised batch methods take the metadata from the first element's runtime type. The model takes one `ModelType` for the whole list, as `UpdateModelList` does with `typeof(D)`.
- The `DB.Open(string ProviderName, ..)` overload (ORZ/DB.cs:55-59) resolves a factory through `DbProviderFactories`, which is a runtime registry outside the model.
- `DB.ExecuteNonQuery` and its siblings, and `DB.CreateConn`, are driver calls; `Debug.WriteLine` logging is left out.
- `AppendLine` writes `Environment.NewLine`; the model fixes it to `"\r\n"`.
- `DB.Databases` is a static dictionary shared between threads; concurrent `Open` calls are not modelled.
- AttributeFunc.RowToModelAssigns: requires the mapped property names to be distinct, which reflection guarantees for one type.
- DbModel.Delete: the source computes the table description a second time inside `GetDeleteSql`; the model uses the one computed before, which is the same value for the same registry.
- Db.Registry.ListDatabases: the listing is a function of a snapshot of each database's provider and connection string in registration order. The C# dictionary's enumeration order is taken to be registration order, which holds while nothing is removed.
- DbLibExample.SampleInsertText and DbLibExample.SampleJsonText: the expected texts are written as concatenations of the builders' pieces rather than one literal. They are equal to the literals in the unit tests.
