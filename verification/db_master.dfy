/** DBLib `DbMaster`: the statement lists and the SELECT text that the reflective batch and
    query methods build before they hand them to the driver. The driver itself (opening the
    connection, executing, the result set) is a parameter. */
module DbMaster {
  import opened Common
  import opened Strings
  import opened Values
  import opened DbLibAttributes
  import opened AttributeFunc

  // ---------------------------------------------------------------- ExecuteInsert

  /** A `DbProvider` as far as `GetLastInsertedId` is concerned: `None` is the base class,
      which answers -1, `Some(id)` a provider that overrides it and reads `id` back. */
  datatype Provider = Provider(lastInsertedId: Option<int>)

  function LastInsertedId(p: Provider): int
  {
    match p.lastInsertedId
    case None => -1
    case Some(id) => id
  }

  /** `ExecuteInsert`: the provider's last id when the statement affected a row, -1 otherwise;
      `affected` is what `ExecuteNonQuery` reported, `opens` whether the connection opened. */
  method ExecuteInsert(p: Provider, opens: bool, affected: int) returns (r: Result<int>)
    ensures !opens <==> r == Err(ConnectionFailed)
    ensures opens && affected > 0 ==> r == Ok(LastInsertedId(p))
    ensures opens && affected <= 0 ==> r == Ok(-1)
    // with the base provider a successful insert is indistinguishable from one that affected nothing
    ensures opens && p.lastInsertedId.None? ==> r == Ok(-1)
  {
    if !opens {
      return Err(ConnectionFailed);
    }
    var id := if affected > 0 then LastInsertedId(p) else -1;
    r := Ok(id);
  }

  // ---------------------------------------------------------------- SELECT text

  /** The text `QueryModelList` sends: the column names joined by ",", the table, and the
      condition after one space unless it is null or blank. With no columns the trim removes
      the space after SELECT (a case the column dictionary never lets through). */
  function SelectSql(tableName: string, dict: seq<Entry>, condition: Option<string>): string
  {
    (if |dict| == 0 then "SELECT" else "SELECT " + Join(",", Names(dict)))
    + " FROM " + tableName
    + (if IsNullOrWhiteSpace(condition) then "" else " " + condition.value)
  }

  /** The condition is appended verbatim after a single space exactly when it is not null or
      whitespace; otherwise the text is the unconditioned SELECT. */
  lemma SelectCondition(tableName: string, dict: seq<Entry>, condition: Option<string>)
    ensures IsNullOrWhiteSpace(condition) ==> SelectSql(tableName, dict, condition) == SelectSql(tableName, dict, None)
    ensures !IsNullOrWhiteSpace(condition) ==>
              SelectSql(tableName, dict, condition) == SelectSql(tableName, dict, None) + " " + condition.value
  {
  }

  /** One more column slots its name into the column list just before ` FROM `: after a comma
      when there are columns already, in place of the space-less `SELECT` otherwise. */
  lemma SelectColumnsAppend(tableName: string, dict: seq<Entry>, e: Entry, condition: Option<string>)
    ensures var before := SelectSql(tableName, dict, condition);
            var k := if |dict| == 0 then 6 else 7 + |Join(",", Names(dict))|;
            k <= |before|
            && SelectSql(tableName, dict + [e], condition)
               == before[..k] + (if |dict| == 0 then " " else ",") + e.col.name + before[k..]
  {
    var where := if IsNullOrWhiteSpace(condition) then "" else " " + condition.value;
    var name := e.col.name;
    assert Names(dict + [e]) == Names(dict) + [name];
    if |dict| > 0 {
      var cols := Join(",", Names(dict));
      var head := "SELECT " + cols;
      assert SelectSql(tableName, dict, condition) == head + " FROM " + tableName + where;
      JoinAppend(",", Names(dict), name);
      AppendAssoc4("SELECT ", cols, ",", name);
      assert SelectSql(tableName, dict + [e], condition) == head + "," + name + " FROM " + tableName + where;
      SpliceAfter(head, ",", name, " FROM ", tableName, where);
    } else {
      assert SelectSql(tableName, dict, condition) == "SELECT" + " FROM " + tableName + where;
      assert Join(",", [name]) == name;
      assert "SELECT " + name == "SELECT" + " " + name;
      assert SelectSql(tableName, dict + [e], condition) == "SELECT" + " " + name + " FROM " + tableName + where;
      SpliceAfter("SELECT", " ", name, " FROM ", tableName, where);
    }
  }




  /** The SELECT `StringBuilder` of `QueryModelList`: append `name,` per entry, remove the
      last character, then the table and the condition. */
  method BuildSelect(tableName: string, dict: seq<Entry>, condition: Option<string>) returns (sql: string)
    ensures sql == SelectSql(tableName, dict, condition)
  {
    var names := "";
    var i := 0;
    while i < |dict|
      invariant 0 <= i <= |dict|
      invariant names == Suffixed(Names(dict[..i]), ",")
    {
      assert dict[..i + 1] == dict[..i] + [dict[i]];
      NamesAppend(dict[..i], dict[i]);
      SuffixedAppend(Names(dict[..i]), dict[i].col.name, ",");
      names := names + dict[i].col.name + ",";
      i := i + 1;
    }
    assert dict[..i] == dict;
    var b := "SELECT " + names;
    b := b[..|b| - 1];
    if |dict| > 0 {
      SuffixedIsJoin(Names(dict), ",");
      assert b == "SELECT " + Join(",", Names(dict));
    } else {
      assert b == "SELECT";
    }
    b := b + " FROM " + tableName;
    if !IsNullOrWhiteSpace(condition) {
      b := b + " " + condition.value;
    }
    sql := b;
  }

  // ---------------------------------------------------------------- QueryModelList

  /** `QueryModelList<D>(condition)`: metadata errors first, then the connection; a data set
      without tables gives null (`None`), otherwise the first table mapped row by row.
      `query` is what `ExecuteDataSet` returns for a SQL text. */
  function QueryResult(t: ModelType, condition: Option<string>, opens: bool,
                       query: string -> seq<DataTable>, convert: Converter, blank: Instance)
    : Result<Option<seq<Instance>>>
    requires forall sql :: |query(sql)| > 0 ==> WellFormed(query(sql)[0])
  {
    match GetTableAttribute(t)
    case Err(err) => Err(err)
    case Ok(table) =>
      var dict := ColumnEntries(t.props);
      if |dict| == 0 then Err(MissingColumnAttribute(t.fullName))
      else if !opens then Err(ConnectionFailed)
      else
        var tables := query(SelectSql(table.name, dict, condition));
        if |tables| == 0 then Ok(None)
        else match TableToModels(tables[0], dict, convert, blank)
             case Err(err) => Err(err)
             case Ok(models) => Ok(Some(models))
  }

  method QueryModelList(t: ModelType, condition: Option<string>, opens: bool,
                        query: string -> seq<DataTable>, convert: Converter, blank: Instance)
    returns (r: Result<Option<seq<Instance>>>)
    requires forall sql :: |query(sql)| > 0 ==> WellFormed(query(sql)[0])
    ensures r == QueryResult(t, condition, opens, query, convert, blank)
  {
    var table := GetTableAttribute(t);
    if table.Err? {
      return Err(table.error);
    }
    var dict := GetColumnDictionary(t);
    if dict.Err? {
      NoEntriesIffNoneMapped(t.props);
      return Err(dict.error);
    }
    if !opens {
      return Err(ConnectionFailed);
    }
    var sql := BuildSelect(table.value.name, dict.value, condition);
    var tables := query(sql);
    if |tables| == 0 {
      return Ok(None);
    }
    var models := TransToModelList(tables[0], dict.value, convert, blank);
    if models.Err? {
      return Err(models.error);
    }
    r := Ok(Some(models.value));
  }

  /** What a query returns: null exactly when the data set has no table; otherwise one model
      per row of the first table, each the mapping of its row. */
  lemma QueryResultShape(t: ModelType, condition: Option<string>, opens: bool,
                         query: string -> seq<DataTable>, convert: Converter, blank: Instance)
    requires forall sql :: |query(sql)| > 0 ==> WellFormed(query(sql)[0])
    requires |t.tableAttrs| == 1 && |ColumnEntries(t.props)| > 0 && opens
    ensures var dict := ColumnEntries(t.props);
            var tables := query(SelectSql(t.tableAttrs[0].name, dict, condition));
            var r := QueryResult(t, condition, opens, query, convert, blank);
            (r == Ok(None) <==> |tables| == 0)
            && (r.Ok? && r.value.Some? ==>
                  |r.value.value| == |tables[0].rows|
                  && forall i :: 0 <= i < |tables[0].rows| ==>
                       RowToModel(tables[0].columns, tables[0].rows[i], dict, convert, blank) == Ok(r.value.value[i]))
  {
    var dict := ColumnEntries(t.props);
    var tables := query(SelectSql(t.tableAttrs[0].name, dict, condition));
    if |tables| > 0 && TableToModels(tables[0], dict, convert, blank).Ok? {
      TableToModelsRowByRow(tables[0], dict, convert, blank);
    }
  }

  // ---------------------------------------------------------------- statement lists

  datatype Kind = Insert | Update

  /** The statement `InsertModelList` / `UpdateModelList` builds for one model. */
  function StatementFor(kind: Kind, m: Instance, table: TableAttribute, dict: seq<Entry>): Result<string>
  {
    if kind == Insert then InsertSql(m, table, dict) else UpdateSql(m, table, dict)
  }

  /** `StatementFor` for a fixed kind, table and column list, as the loop applies it. */
  function Builder(kind: Kind, table: TableAttribute, dict: seq<Entry>): Instance -> Result<string>
  {
    m => StatementFor(kind, m, table, dict)
  }

  /** The `sqlList` of the literal batch methods: one statement per model in input order, or
      the error of the first model whose statement cannot be built. */
  function Statements(build: Instance -> Result<string>, models: seq<Instance>): Result<seq<string>>
    decreases |models|
  {
    if |models| == 0 then Ok([])
    else
      match Statements(build, models[..|models| - 1])
      case Err(err) => Err(err)
      case Ok(sqls) =>
        match build(models[|models| - 1])
        case Err(err) => Err(err)
        case Ok(sql) => Ok(sqls + [sql])
  }

  /** The list is built exactly when every model's statement can be built. */
  lemma {:induction false} StatementsOkIff(build: Instance -> Result<string>, models: seq<Instance>)
    ensures Statements(build, models).Ok? <==> forall i :: 0 <= i < |models| ==> build(models[i]).Ok?
    decreases |models|
  {
    if |models| > 0 {
      var n := |models| - 1;
      var init := models[..n];
      StatementsOkIff(build, init);
      if Statements(build, models).Ok? {
        forall i | 0 <= i < |models|
          ensures build(models[i]).Ok?
        {
          if i < n {
            assert models[i] == init[i];
          }
        }
      }
      if forall i :: 0 <= i < |models| ==> build(models[i]).Ok? {
        assert forall i :: 0 <= i < n ==> init[i] == models[i];
        assert Statements(build, init).Ok?;
        assert build(models[n]).Ok?;
      }
    }
  }

  /** A built list holds exactly one statement per model, the i-th being the i-th model's. */
  lemma {:induction false} StatementsOnePerModel(build: Instance -> Result<string>, models: seq<Instance>)
    requires Statements(build, models).Ok?
    ensures var sqls := Statements(build, models).value;
            |sqls| == |models|
            && forall i :: 0 <= i < |models| ==> build(models[i]) == Ok(sqls[i])
    decreases |models|
  {
    if |models| > 0 {
      var n := |models| - 1;
      var init := models[..n];
      StatementsOnePerModel(build, init);
      var sqls := Statements(build, models).value;
      var prev := Statements(build, init).value;
      assert sqls == prev + [build(models[n]).value];
      forall i | 0 <= i < |models|
        ensures build(models[i]) == Ok(sqls[i])
      {
        if i < n {
          assert models[i] == init[i];
        }
      }
    }
  }

  lemma {:induction false} StatementsErrStays(build: Instance -> Result<string>, models: seq<Instance>, n: nat)
    requires n <= |models| && Statements(build, models[..n]).Err?
    ensures Statements(build, models) == Statements(build, models[..n])
    decreases |models| - n
  {
    if n < |models| {
      assert models[..n + 1][..n] == models[..n];
      StatementsErrStays(build, models, n + 1);
    } else {
      assert models[..n] == models;
    }
  }

  /** What a batch method hands to the driver: nothing (`Skipped`), a list of literal
      statements run in one transaction, or one parameterised statement run once per
      parameter set in one transaction. */
  datatype Batch =
    | Skipped
    | Script(sqls: seq<string>)
    | Repeated(sql: string, paramSets: seq<seq<DbParam>>)

  /** `InsertModelList` / `UpdateModelList`: empty input returns at once; otherwise metadata,
      then every statement, then the connection. */
  function LiteralBatch(kind: Kind, models: seq<Instance>, t: ModelType, opens: bool): Result<Batch>
  {
    if |models| == 0 then Ok(Skipped)
    else
      match GetTableAttribute(t)
      case Err(err) => Err(err)
      case Ok(table) =>
        var dict := ColumnEntries(t.props);
        if |dict| == 0 then Err(MissingColumnAttribute(t.fullName))
        else
          match Statements(Builder(kind, table, dict), models)
          case Err(err) => Err(err)
          case Ok(sqls) => if opens then Ok(Script(sqls)) else Err(ConnectionFailed)
  }

  /** Empty input is skipped without touching metadata or the connection; a script always
      carries one statement per model, each the one that model's SQL builder produces. */
  lemma LiteralBatchShape(kind: Kind, models: seq<Instance>, t: ModelType, opens: bool)
    ensures LiteralBatch(kind, models, t, opens) == Ok(Skipped) <==> |models| == 0
    ensures var r := LiteralBatch(kind, models, t, opens);
            r.Ok? && r.value.Script? ==>
              |t.tableAttrs| == 1 && opens
              && |r.value.sqls| == |models|
              && forall i :: 0 <= i < |models| ==>
                   StatementFor(kind, models[i], t.tableAttrs[0], ColumnEntries(t.props)) == Ok(r.value.sqls[i])
  {
    var r := LiteralBatch(kind, models, t, opens);
    if r.Ok? && r.value.Script? {
      StatementsOnePerModel(Builder(kind, t.tableAttrs[0], ColumnEntries(t.props)), models);
    }
  }

  /** The loop shared by the two literal batch methods. */
  method BuildStatements(kind: Kind, models: seq<Instance>, table: TableAttribute, dict: seq<Entry>)
    returns (r: Result<seq<string>>)
    ensures r == Statements(Builder(kind, table, dict), models)
  {
    var sqlList: seq<string> := [];
    var i := 0;
    while i < |models|
      invariant 0 <= i <= |models|
      invariant Statements(Builder(kind, table, dict), models[..i]) == Ok(sqlList)
    {
      assert models[..i + 1][..i] == models[..i];
      var sql;
      if kind == Insert {
        sql := GetInsertSql(models[i], table, dict);
      } else {
        sql := GetUpdateSql(models[i], table, dict);
      }
      if sql.Err? {
        StatementsErrStays(Builder(kind, table, dict), models, i + 1);
        return Err(sql.error);
      }
      sqlList := sqlList + [sql.value];
      i := i + 1;
    }
    assert models[..i] == models;
    r := Ok(sqlList);
  }

  method LiteralModelList(kind: Kind, models: seq<Instance>, t: ModelType, opens: bool) returns (r: Result<Batch>)
    ensures r == LiteralBatch(kind, models, t, opens)
  {
    if |models| == 0 {
      return Ok(Skipped);
    }
    var table := GetTableAttribute(t);
    if table.Err? {
      return Err(table.error);
    }
    var dict := GetColumnDictionary(t);
    if dict.Err? {
      NoEntriesIffNoneMapped(t.props);
      return Err(dict.error);
    }
    var sqls := BuildStatements(kind, models, table.value, dict.value);
    if sqls.Err? {
      return Err(sqls.error);
    }
    if !opens {
      return Err(ConnectionFailed);
    }
    r := Ok(Script(sqls.value));
  }

  /** `InsertModelList<D>(modelList)`. */
  method InsertModelList(models: seq<Instance>, t: ModelType, opens: bool) returns (r: Result<Batch>)
    ensures r == LiteralBatch(Insert, models, t, opens)
  {
    r := LiteralModelList(Insert, models, t, opens);
  }

  /** `UpdateModelList<D>(modelList)`. */
  method UpdateModelList(models: seq<Instance>, t: ModelType, opens: bool) returns (r: Result<Batch>)
    ensures r == LiteralBatch(Update, models, t, opens)
  {
    r := LiteralModelList(Update, models, t, opens);
  }

  // ---------------------------------------------------------------- parameterised batches

  /** `LargeAmoutInsertOrUpdate(sql, modelList, dict)`: empty input returns before the
      connection is opened; otherwise the same statement once per model with that model's
      parameters. */
  function RepeatedBatch(sql: string, models: seq<Instance>, dict: seq<Entry>, opens: bool): Result<Batch>
  {
    if |models| == 0 then Ok(Skipped)
    else if !opens then Err(ConnectionFailed)
    else Ok(Repeated(sql, seq(|models|, i requires 0 <= i < |models| => DbParams(dict, models[i]))))
  }

  method LargeAmountInsertOrUpdate(sql: string, models: seq<Instance>, dict: seq<Entry>, opens: bool)
    returns (r: Result<Batch>)
    ensures r == RepeatedBatch(sql, models, dict, opens)
  {
    if |models| == 0 {
      return Ok(Skipped);
    }
    if !opens {
      return Err(ConnectionFailed);
    }
    var sets: seq<seq<DbParam>> := [];
    var i := 0;
    while i < |models|
      invariant 0 <= i <= |models|
      invariant |sets| == i && forall k :: 0 <= k < i ==> sets[k] == DbParams(dict, models[k])
    {
      var ps := GetDbParameters(models[i], dict);
      sets := sets + [ps];
      i := i + 1;
    }
    assert sets == seq(|models|, k requires 0 <= k < |models| => DbParams(dict, models[k]));
    r := Ok(Repeated(sql, sets));
  }

  /** `InsertModelList_UseParameter` / `UpdateModelList_UseParameter`: `First()` runs before
      any guard, so empty input fails with InvalidOperationException. */
  function ParameterisedBatch(kind: Kind, models: seq<Instance>, t: ModelType, opens: bool): Result<Batch>
  {
    if |models| == 0 then Err(SequenceEmpty)
    else
      match GetTableAttribute(t)
      case Err(err) => Err(err)
      case Ok(table) =>
        var dict := ColumnEntries(t.props);
        if |dict| == 0 then Err(MissingColumnAttribute(t.fullName))
        else
          var sql := if kind == Insert then InsertSqlUseParameters(table.name, dict)
                     else UpdateSqlUseParameters(table.name, dict);
          RepeatedBatch(sql, models, dict, opens)
  }

  /** Unlike the literal methods, the parameterised ones never skip: empty input is an error,
      so the empty guard of `LargeAmoutInsertOrUpdate` is unreachable from them. Otherwise
      every model gets one parameter set, one parameter per dictionary entry. */
  lemma ParameterisedBatchShape(kind: Kind, models: seq<Instance>, t: ModelType, opens: bool)
    ensures ParameterisedBatch(kind, models, t, opens) != Ok(Skipped)
    ensures ParameterisedBatch(kind, models, t, opens) == Err(SequenceEmpty) <==> |models| == 0
    ensures LiteralBatch(kind, [], t, opens) == Ok(Skipped) && ParameterisedBatch(kind, [], t, opens).Err?
    ensures var r := ParameterisedBatch(kind, models, t, opens);
            r.Ok? ==> r.value.Repeated?
                      && |r.value.paramSets| == |models|
                      && forall i :: 0 <= i < |models| ==>
                           |r.value.paramSets[i]| == |ColumnEntries(t.props)|
                           && r.value.paramSets[i] == DbParams(ColumnEntries(t.props), models[i])
  {
  }

  method ParameterisedModelList(kind: Kind, models: seq<Instance>, t: ModelType, opens: bool)
    returns (r: Result<Batch>)
    ensures r == ParameterisedBatch(kind, models, t, opens)
  {
    if |models| == 0 {
      return Err(SequenceEmpty);
    }
    var table := GetTableAttribute(t);
    if table.Err? {
      return Err(table.error);
    }
    var dict := GetColumnDictionary(t);
    if dict.Err? {
      NoEntriesIffNoneMapped(t.props);
      return Err(dict.error);
    }
    var sql;
    if kind == Insert {
      sql := GetInsertSqlUseParameters(table.value.name, dict.value);
    } else {
      sql := GetUpdateSqlUseParameters(table.value.name, dict.value);
    }
    r := LargeAmountInsertOrUpdate(sql, models, dict.value, opens);
  }

  /** `InsertModelList_UseParameter<D>(modelList)`. */
  method InsertModelListUseParameter(models: seq<Instance>, t: ModelType, opens: bool) returns (r: Result<Batch>)
    ensures r == ParameterisedBatch(Insert, models, t, opens)
  {
    r := ParameterisedModelList(Insert, models, t, opens);
  }

  /** `UpdateModelList_UseParameter<D>(modelList)`. */
  method UpdateModelListUseParameter(models: seq<Instance>, t: ModelType, opens: bool) returns (r: Result<Batch>)
    ensures r == ParameterisedBatch(Update, models, t, opens)
  {
    r := ParameterisedModelList(Update, models, t, opens);
  }
}
