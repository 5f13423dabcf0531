/** ORZ `DBModel`: table and column descriptors with their defaults, the parameterised
    INSERT / UPDATE / DELETE statements, and the success rule of the CRUD helpers.
    `databases` is the set of names registered in `DB.Databases` when a helper runs (the
    helpers read it from the registry), and the driver's `ExecuteNonQuery` is a parameter. */
module DbModel {
  import opened Common
  import opened Strings
  import opened Values
  import opened OrzAttributes
  import Db

  /** A public property as reflection reports it, with the ORZ column attributes attached to it. */
  datatype Property = Property(name: string, propType: PropType, columnAttrs: seq<ColumnAttribute>)

  /** A model class: its simple name, full name, table attributes and properties in declaration order. */
  datatype ModelType = ModelType(name: string, fullName: string, tableAttrs: seq<TableAttribute>, props: seq<Property>)

  datatype TableInfo = TableInfo(tableName: string, dbName: string)

  /** `ColumnInfo`; `value` is the property's current value (null in the column dictionary). */
  datatype ColumnInfo = ColumnInfo(
    columnName: string,
    isPrimaryKey: bool,
    isAutoIncrement: bool,
    defaultValue: Value,
    value: Value,
    prop: Property)

  /** A `DbParameter` created by the provider: its name and value. */
  datatype Parameter = Parameter(name: string, value: Value)

  /** A statement text with the parameter array handed out through the `out` argument. */
  datatype Statement = Statement(sql: string, parameters: seq<Parameter>)

  // ---------------------------------------------------------------- table descriptor

  /** `GetTableInfo(type)`: the single TableAttribute's names, the type name standing in for a
      null table name; with no (or several) attributes, the type name in database "default".
      The database must be registered; a null name fails the dictionary lookup itself. */
  function GetTableInfo(t: ModelType, databases: set<string>): (r: Result<TableInfo>)
    ensures r.Ok? ==> r.value.dbName in databases
  {
    var tableName := if |t.tableAttrs| == 1 && t.tableAttrs[0].tableName.Some? then t.tableAttrs[0].tableName.value else t.name;
    var dbName := if |t.tableAttrs| == 1 then t.tableAttrs[0].dbName else Some("default");
    if dbName.None? then Err(NullKey)
    else if dbName.value !in databases then Err(UnknownDatabase(dbName.value))
    else Ok(TableInfo(tableName, dbName.value))
  }

  /** The defaults the two TableAttribute constructors and a missing attribute lead to. */
  lemma TableInfoDefaults(t: ModelType, databases: set<string>, tableName: Option<string>, dbName: string)
    ensures t.tableAttrs == [] ==>
              GetTableInfo(t, databases)
              == if "default" in databases then Ok(TableInfo(t.name, "default")) else Err(UnknownDatabase("default"))
    ensures t.tableAttrs == [NewTableAttribute(tableName)] ==>
              GetTableInfo(t, databases)
              == if "default" in databases then Ok(TableInfo(if tableName.Some? then tableName.value else t.name, "default"))
                 else Err(UnknownDatabase("default"))
    ensures t.tableAttrs == [NewTableAttributeIn(Some(dbName), tableName)] ==>
              GetTableInfo(t, databases)
              == if dbName in databases then Ok(TableInfo(if tableName.Some? then tableName.value else t.name, dbName))
                 else Err(UnknownDatabase(dbName))
    ensures t.tableAttrs == [NewTableAttributeIn(None, tableName)] ==> GetTableInfo(t, databases) == Err(NullKey)
  {
  }

  // ---------------------------------------------------------------- column descriptors

  /** How `GetColumnDict` / `GetColumnInfos` describe one property whose current value is `v`:
      a single column attribute is used unless it says Ignore, its null name standing for the
      property name; any other number of attributes counts as no annotation. */
  function Describe(p: Property, v: Value): Option<ColumnInfo>
  {
    if |p.columnAttrs| == 1 then
      var ca := p.columnAttrs[0];
      if ca.ignore then None
      else Some(ColumnInfo(if ca.name.Some? then ca.name.value else p.name, ca.primaryKey, ca.autoIncrement, ca.defaultValue, v, p))
    else Some(ColumnInfo(p.name, false, false, Null, v, p))
  }

  /** Ignore drops the property, a nameless or missing annotation maps it under its own name
      with both flags false, and a named one under the given name. */
  lemma DescribeDefaults(p: Property, v: Value, name: string)
    ensures p.columnAttrs == [IgnoreColumnAttribute()] ==> Describe(p, v).None?
    ensures p.columnAttrs == [] || p.columnAttrs == [NewColumnAttribute()] ==>
              Describe(p, v) == Some(ColumnInfo(p.name, false, false, Null, v, p))
    ensures p.columnAttrs == [NamedColumnAttribute(Some(name))] ==>
              Describe(p, v) == Some(ColumnInfo(name, false, false, Null, v, p))
    ensures |p.columnAttrs| >= 2 ==> Describe(p, v) == Some(ColumnInfo(p.name, false, false, Null, v, p))
  {
  }

  function Described(p: Property, m: Instance): seq<ColumnInfo>
  {
    match Describe(p, Get(m, p.name))
    case None => []
    case Some(c) => [c]
  }

  /** `GetColumnInfos(model)`: the described properties in declaration order, with their values. */
  function ColumnInfos(props: seq<Property>, m: Instance): (infos: seq<ColumnInfo>)
    ensures |infos| <= |props|
    decreases |props|
  {
    if |props| == 0 then []
    else ColumnInfos(props[..|props| - 1], m) + Described(props[|props| - 1], m)
  }

  /** Describing a concatenation describes each part in turn: declaration order is kept and no
      property is looked at twice. */
  lemma {:induction false} ColumnInfosConcat(a: seq<Property>, b: seq<Property>, m: Instance)
    ensures ColumnInfos(a + b, m) == ColumnInfos(a, m) + ColumnInfos(b, m)
    decreases |b|
  {
    if |b| == 0 {
      assert a + b == a;
    } else {
      var b' := b[..|b| - 1];
      assert (a + b)[..|a + b| - 1] == a + b';
      assert (a + b)[|a + b| - 1] == b[|b| - 1];
      ColumnInfosConcat(a, b', m);
    }
  }

  /** The descriptors are exactly those of the properties that are not ignored, each carrying
      the property's current value. */
  lemma {:induction false} ColumnInfosExactly(props: seq<Property>, m: Instance)
    ensures forall c :: c in ColumnInfos(props, m) <==>
              exists i :: 0 <= i < |props| && Describe(props[i], Get(m, props[i].name)) == Some(c)
    ensures forall c :: c in ColumnInfos(props, m) ==> c.value == Get(m, c.prop.name)
    decreases |props|
  {
    if |props| > 0 {
      var init := props[..|props| - 1];
      ColumnInfosExactly(init, m);
      assert forall i :: 0 <= i < |init| ==> init[i] == props[i];
    }
  }

  method GetColumnInfos(m: Instance, t: ModelType) returns (infos: seq<ColumnInfo>)
    ensures infos == ColumnInfos(t.props, m)
  {
    infos := [];
    var i := 0;
    while i < |t.props|
      invariant 0 <= i <= |t.props|
      invariant infos == ColumnInfos(t.props[..i], m)
    {
      var p := t.props[i];
      assert t.props[..i + 1][..i] == t.props[..i];
      i := i + 1;
      var info := ColumnInfo(p.name, false, false, Null, Get(m, p.name), p);
      if |p.columnAttrs| == 1 {
        var ca := p.columnAttrs[0];
        if ca.ignore {
          continue;
        }
        var name := if ca.name.Some? then ca.name.value else p.name;
        info := info.(columnName := name, defaultValue := ca.defaultValue,
                      isAutoIncrement := ca.autoIncrement, isPrimaryKey := ca.primaryKey);
      }
      infos := infos + [info];
    }
    assert t.props[..i] == t.props;
  }

  /** The column key a property files its descriptor under, when it is not ignored. */
  predicate Keyed(p: Property, key: string)
  {
    Describe(p, Null).Some? && FoldCase(Describe(p, Null).value.columnName) == key
  }

  /** `GetColumnDict(type)`: descriptors without values, keyed by column name compared
      case-insensitively; a later property with the same key overwrites an earlier one. */
  function ColumnDict(props: seq<Property>): map<string, ColumnInfo>
    decreases |props|
  {
    if |props| == 0 then map[]
    else
      var d := ColumnDict(props[..|props| - 1]);
      match Describe(props[|props| - 1], Null)
      case None => d
      case Some(c) => d[FoldCase(c.columnName) := c]
  }

  /** A key is present exactly when some non-ignored property resolves to it. */
  lemma {:induction false} ColumnDictKeys(props: seq<Property>)
    ensures forall k :: k in ColumnDict(props) <==> exists i :: 0 <= i < |props| && Keyed(props[i], k)
    decreases |props|
  {
    if |props| > 0 {
      var n := |props| - 1;
      var init := props[..n];
      ColumnDictKeys(init);
      forall k
        ensures k in ColumnDict(props) <==> exists i :: 0 <= i < |props| && Keyed(props[i], k)
      {
        if exists i :: 0 <= i < |props| && Keyed(props[i], k) {
          var i :| 0 <= i < |props| && Keyed(props[i], k);
          if i < n {
            assert Keyed(init[i], k);
            assert k in ColumnDict(init);
          }
        }
        if k in ColumnDict(props) && !Keyed(props[n], k) {
          assert k in ColumnDict(init);
          var i :| 0 <= i < n && Keyed(init[i], k);
          assert Keyed(props[i], k);
        }
      }
    }
  }

  /** Property `i` is the last one filed under `key`. */
  predicate LastKeyed(props: seq<Property>, i: int, key: string)
  {
    0 <= i < |props| && Keyed(props[i], key) && forall j :: i < j < |props| ==> !Keyed(props[j], key)
  }

  /** Every present key holds the descriptor of the last property filed under it: duplicates
      raise no error, the later one silently wins. */
  lemma {:induction false} ColumnDictLastWins(props: seq<Property>)
    ensures forall k :: k in ColumnDict(props) ==>
              exists i :: LastKeyed(props, i, k) && ColumnDict(props)[k] == Describe(props[i], Null).value
    decreases |props|
  {
    if |props| > 0 {
      var n := |props| - 1;
      var init := props[..n];
      ColumnDictLastWins(init);
      var d := ColumnDict(props);
      forall k | k in d
        ensures exists i :: LastKeyed(props, i, k) && d[k] == Describe(props[i], Null).value
      {
        if Keyed(props[n], k) {
          assert LastKeyed(props, n, k);
        } else {
          assert k in ColumnDict(init) && d[k] == ColumnDict(init)[k];
          var i :| LastKeyed(init, i, k) && ColumnDict(init)[k] == Describe(init[i], Null).value;
          LastKeyedExtends(props, i, k);
        }
      }
    }
  }

  lemma LastKeyedExtends(props: seq<Property>, i: int, key: string)
    requires |props| > 0 && LastKeyed(props[..|props| - 1], i, key) && !Keyed(props[|props| - 1], key)
    ensures LastKeyed(props, i, key)
  {
    var n := |props| - 1;
    forall j | i < j < |props|
      ensures !Keyed(props[j], key)
    {
      if j < n {
        assert props[j] == props[..n][j];
      }
    }
  }

  method GetColumnDict(t: ModelType) returns (d: map<string, ColumnInfo>)
    ensures d == ColumnDict(t.props)
  {
    d := map[];
    var i := 0;
    while i < |t.props|
      invariant 0 <= i <= |t.props|
      invariant d == ColumnDict(t.props[..i])
    {
      var p := t.props[i];
      assert t.props[..i + 1][..i] == t.props[..i];
      i := i + 1;
      var info := ColumnInfo(p.name, false, false, Null, Null, p);
      if |p.columnAttrs| == 1 {
        var ca := p.columnAttrs[0];
        if ca.ignore {
          continue;
        }
        var name := if ca.name.Some? then ca.name.value else p.name;
        info := info.(columnName := name, defaultValue := ca.defaultValue,
                      isAutoIncrement := ca.autoIncrement, isPrimaryKey := ca.primaryKey);
      }
      d := d[FoldCase(info.columnName) := info];
    }
    assert t.props[..i] == t.props;
  }

  // ---------------------------------------------------------------- statement pieces

  function Names(cs: seq<ColumnInfo>): seq<string>
  {
    seq(|cs|, i requires 0 <= i < |cs| => cs[i].columnName)
  }

  function Placeholders(cs: seq<ColumnInfo>): seq<string>
  {
    seq(|cs|, i requires 0 <= i < |cs| => "@" + cs[i].columnName)
  }

  /** `col=@col`, the form of every SET and WHERE item. */
  function Pair(c: ColumnInfo): string
  {
    c.columnName + "=@" + c.columnName
  }

  function Pairs(cs: seq<ColumnInfo>): seq<string>
  {
    seq(|cs|, i requires 0 <= i < |cs| => Pair(cs[i]))
  }

  /** One provider parameter per descriptor, named `@` + column, holding the descriptor's value. */
  function Parameters(cs: seq<ColumnInfo>): seq<Parameter>
  {
    seq(|cs|, i requires 0 <= i < |cs| => Parameter("@" + cs[i].columnName, cs[i].value))
  }

  lemma PiecesAppend(cs: seq<ColumnInfo>, c: ColumnInfo)
    ensures Names(cs + [c]) == Names(cs) + [c.columnName]
    ensures Placeholders(cs + [c]) == Placeholders(cs) + ["@" + c.columnName]
    ensures Pairs(cs + [c]) == Pairs(cs) + [Pair(c)]
    ensures Parameters(cs + [c]) == Parameters(cs) + [Parameter("@" + c.columnName, c.value)]
  {
  }

  // ---------------------------------------------------------------- INSERT

  predicate SkippedByInsert(c: ColumnInfo)
  {
    c.isPrimaryKey && c.isAutoIncrement
  }

  function InsertColumns(infos: seq<ColumnInfo>): (cs: seq<ColumnInfo>)
    ensures |cs| <= |infos|
    decreases |infos|
  {
    if |infos| == 0 then []
    else
      var c := infos[|infos| - 1];
      InsertColumns(infos[..|infos| - 1]) + (if SkippedByInsert(c) then [] else [c])
  }

  /** The insert names exactly the descriptors that are not auto-increment primary keys. */
  lemma {:induction false} InsertColumnsExactly(infos: seq<ColumnInfo>)
    ensures forall c :: c in InsertColumns(infos) <==> c in infos && !SkippedByInsert(c)
    decreases |infos|
  {
    if |infos| > 0 {
      var init := infos[..|infos| - 1];
      InsertColumnsExactly(init);
      assert infos == init + [infos[|infos| - 1]];
    }
  }

  /** `GetInsertSql(model, db, out parameters, tInfo)`: an empty column set gives `()` lists. */
  function InsertStatement(tInfo: TableInfo, infos: seq<ColumnInfo>): Statement
  {
    var cs := InsertColumns(infos);
    Statement(
      "INSERT INTO " + tInfo.tableName + " (" + Join(",", Names(cs)) + ") VALUES (" + Join(",", Placeholders(cs)) + ");",
      Parameters(cs))
  }

  /** Names, placeholders and parameters line up one to one: the k-th placeholder is `@` and the
      k-th name, the k-th parameter is named by it and carries that column's value. */
  lemma InsertAligned(tInfo: TableInfo, infos: seq<ColumnInfo>)
    ensures var cs := InsertColumns(infos);
            var ps := InsertStatement(tInfo, infos).parameters;
            |Names(cs)| == |Placeholders(cs)| == |ps| == |cs|
            && forall k :: 0 <= k < |cs| ==>
                 Placeholders(cs)[k] == "@" + Names(cs)[k] && ps[k].name == Placeholders(cs)[k] && ps[k].value == cs[k].value
    ensures forall c :: c in InsertColumns(infos) <==> c in infos && !SkippedByInsert(c)
  {
    InsertColumnsExactly(infos);
  }

  lemma InsertColumnsStep(infos: seq<ColumnInfo>, i: nat)
    requires i < |infos|
    ensures InsertColumns(infos[..i + 1]) == InsertColumns(infos[..i]) + (if SkippedByInsert(infos[i]) then [] else [infos[i]])
  {
    assert infos[..i + 1][..i] == infos[..i];
  }

  /** One more descriptor extends the three insert builders by its column, or leaves them alone. */
  lemma InsertBuildersStep(infos: seq<ColumnInfo>, i: nat)
    requires i < |infos|
    ensures var c := infos[i];
            var before := InsertColumns(infos[..i]);
            var after := InsertColumns(infos[..i + 1]);
            if SkippedByInsert(c) then after == before
            else
              Prefixed(Names(after), ",") == Prefixed(Names(before), ",") + "," + c.columnName
              && Prefixed(Placeholders(after), ",") == Prefixed(Placeholders(before), ",") + ",@" + c.columnName
              && Parameters(after) == Parameters(before) + [Parameter("@" + c.columnName, c.value)]
  {
    var c := infos[i];
    InsertColumnsStep(infos, i);
    var cs := InsertColumns(infos[..i]);
    if !SkippedByInsert(c) {
      PiecesAppend(cs, c);
      PrefixedAppend(Names(cs), c.columnName, ",");
      PrefixedAppend(Placeholders(cs), "@" + c.columnName, ",");
      var v := Prefixed(Placeholders(cs), ",");
      assert v + "," + ("@" + c.columnName) == v + ",@" + c.columnName;
    } else {
      assert InsertColumns(infos[..i + 1]) == cs;
    }
  }

  /** The trimmed insert builders give the insert statement. */
  lemma InsertFromBuilders(tInfo: TableInfo, infos: seq<ColumnInfo>)
    ensures var cs := InsertColumns(infos);
            var b1 := Prefixed(Names(cs), ",");
            var b2 := Prefixed(Placeholders(cs), ",");
            var columns := if |b1| > 0 then b1[1..] else b1;
            var values := if |b2| > 0 then b2[1..] else b2;
            InsertStatement(tInfo, infos).sql == "INSERT INTO " + tInfo.tableName + " (" + columns + ") VALUES (" + values + ");"
  {
    var cs := InsertColumns(infos);
    TrimmedLeading(Names(cs), ",");
    TrimmedLeading(Placeholders(cs), ",");
  }

  method GetInsertSql(m: Instance, t: ModelType, tInfo: TableInfo) returns (sql: string, parameters: seq<Parameter>)
    ensures Statement(sql, parameters) == InsertStatement(tInfo, ColumnInfos(t.props, m))
  {
    var infos := GetColumnInfos(m, t);
    var columns := "";
    var values := "";
    var paramList: seq<Parameter> := [];
    var i := 0;
    while i < |infos|
      invariant 0 <= i <= |infos|
      invariant columns == Prefixed(Names(InsertColumns(infos[..i])), ",")
      invariant values == Prefixed(Placeholders(InsertColumns(infos[..i])), ",")
      invariant paramList == Parameters(InsertColumns(infos[..i]))
    {
      var c := infos[i];
      InsertBuildersStep(infos, i);
      if !SkippedByInsert(c) {
        columns := columns + "," + c.columnName;
        values := values + ",@" + c.columnName;
        paramList := paramList + [Parameter("@" + c.columnName, c.value)];
      }
      i := i + 1;
    }
    assert infos[..i] == infos;
    InsertFromBuilders(tInfo, infos);
    if |columns| > 0 {
      columns := columns[1..];
    }
    if |values| > 0 {
      values := values[1..];
    }
    parameters := paramList;
    sql := "INSERT INTO " + tInfo.tableName + " (" + columns + ") VALUES (" + values + ");";
  }

  // ---------------------------------------------------------------- UPDATE and DELETE

  function KeyInfos(infos: seq<ColumnInfo>): (ks: seq<ColumnInfo>)
    ensures |ks| <= |infos|
    decreases |infos|
  {
    if |infos| == 0 then []
    else
      var c := infos[|infos| - 1];
      KeyInfos(infos[..|infos| - 1]) + (if c.isPrimaryKey then [c] else [])
  }

  function NonKeyInfos(infos: seq<ColumnInfo>): (ns: seq<ColumnInfo>)
    ensures |ns| <= |infos|
    decreases |infos|
  {
    if |infos| == 0 then []
    else
      var c := infos[|infos| - 1];
      NonKeyInfos(infos[..|infos| - 1]) + (if c.isPrimaryKey then [] else [c])
  }

  /** The key filter keeps exactly the primary-key descriptors. */
  lemma {:induction false} KeyInfosExactly(infos: seq<ColumnInfo>)
    ensures forall c :: c in KeyInfos(infos) <==> c in infos && c.isPrimaryKey
    decreases |infos|
  {
    if |infos| > 0 {
      var init := infos[..|infos| - 1];
      KeyInfosExactly(init);
      assert infos == init + [infos[|infos| - 1]];
    }
  }

  /** The non-key filter keeps exactly the other descriptors. */
  lemma {:induction false} NonKeyInfosExactly(infos: seq<ColumnInfo>)
    ensures forall c :: c in NonKeyInfos(infos) <==> c in infos && !c.isPrimaryKey
    decreases |infos|
  {
    if |infos| > 0 {
      var init := infos[..|infos| - 1];
      NonKeyInfosExactly(init);
      assert infos == init + [infos[|infos| - 1]];
    }
  }

  /** Every descriptor goes to exactly one side; with no key at all the non-key side is the
      whole list. */
  lemma {:induction false} KeySplit(infos: seq<ColumnInfo>)
    ensures |KeyInfos(infos)| + |NonKeyInfos(infos)| == |infos|
    ensures |KeyInfos(infos)| == 0 ==> NonKeyInfos(infos) == infos
    decreases |infos|
  {
    if |infos| > 0 {
      var init := infos[..|infos| - 1];
      KeySplit(init);
      if |KeyInfos(infos)| == 0 {
        assert |KeyInfos(init)| == 0;
        assert infos == init + [infos[|infos| - 1]];
      }
    }
  }

  lemma KeySplitStep(infos: seq<ColumnInfo>, i: nat)
    requires i < |infos|
    ensures KeyInfos(infos[..i + 1]) == KeyInfos(infos[..i]) + (if infos[i].isPrimaryKey then [infos[i]] else [])
    ensures NonKeyInfos(infos[..i + 1]) == NonKeyInfos(infos[..i]) + (if infos[i].isPrimaryKey then [] else [infos[i]])
  {
    assert infos[..i + 1][..i] == infos[..i];
  }

  /** `GetUpdateSql(model, db, out parameters, tInfo)`: no primary key is an error; otherwise the
      non-key pairs in SET, the key pairs in WHERE, and a parameter for every descriptor. */
  function UpdateStatement(tInfo: TableInfo, infos: seq<ColumnInfo>): Result<Statement>
  {
    if |KeyInfos(infos)| == 0 then Err(NoPrimaryKey(tInfo.tableName))
    else Ok(Statement(
      "UPDATE " + tInfo.tableName + " SET " + Join(",", Pairs(NonKeyInfos(infos)))
      + " WHERE " + Join(" AND ", Pairs(KeyInfos(infos))) + ";",
      Parameters(infos)))
  }

  /** `GetDeleteSql(model, db, out parameters)`: the key pairs when there is a key, otherwise
      every column's pair; only a type without columns is an error. */
  function DeleteStatement(tInfo: TableInfo, infos: seq<ColumnInfo>): Result<Statement>
  {
    var keys := KeyInfos(infos);
    var others := NonKeyInfos(infos);
    if |keys| > 0 then
      Ok(Statement("DELETE FROM " + tInfo.tableName + " WHERE " + Join(" AND ", Pairs(keys)) + ";", Parameters(infos)))
    else if |others| > 0 then
      Ok(Statement("DELETE FROM " + tInfo.tableName + " WHERE " + Join(" AND ", Pairs(others)) + ";", Parameters(infos)))
    else Err(NoPrimaryKey(tInfo.tableName))
  }

  /** Update fails exactly without a key; delete fails exactly without columns, and without a key
      it matches on every column. Both pass a parameter for every descriptor, keys included. */
  lemma StatementErrors(tInfo: TableInfo, infos: seq<ColumnInfo>)
    ensures UpdateStatement(tInfo, infos).Err? <==> forall c :: c in infos ==> !c.isPrimaryKey
    ensures DeleteStatement(tInfo, infos).Err? <==> |infos| == 0
    ensures (forall c :: c in infos ==> !c.isPrimaryKey) && |infos| > 0 ==>
              DeleteStatement(tInfo, infos)
              == Ok(Statement("DELETE FROM " + tInfo.tableName + " WHERE " + Join(" AND ", Pairs(infos)) + ";", Parameters(infos)))
    ensures UpdateStatement(tInfo, infos).Ok? ==> |UpdateStatement(tInfo, infos).value.parameters| == |infos|
    ensures DeleteStatement(tInfo, infos).Ok? ==> |DeleteStatement(tInfo, infos).value.parameters| == |infos|
  {
    KeySplit(infos);
    KeyInfosExactly(infos);
    if |KeyInfos(infos)| > 0 {
      assert KeyInfos(infos)[0] in KeyInfos(infos);
    }
  }

  /** The two builders of the update and delete loops once the first `i` descriptors are seen. */
  function KeyBuilder(infos: seq<ColumnInfo>): string
  {
    Prefixed(Pairs(KeyInfos(infos)), " AND ")
  }

  lemma BuildersStep(infos: seq<ColumnInfo>, i: nat, sep: string)
    requires i < |infos|
    ensures infos[i].isPrimaryKey ==>
              KeyBuilder(infos[..i + 1]) == KeyBuilder(infos[..i]) + " AND " + Pair(infos[i])
              && Prefixed(Pairs(NonKeyInfos(infos[..i + 1])), sep) == Prefixed(Pairs(NonKeyInfos(infos[..i])), sep)
    ensures !infos[i].isPrimaryKey ==>
              KeyBuilder(infos[..i + 1]) == KeyBuilder(infos[..i])
              && Prefixed(Pairs(NonKeyInfos(infos[..i + 1])), sep) == Prefixed(Pairs(NonKeyInfos(infos[..i])), sep) + sep + Pair(infos[i])
  {
    var c := infos[i];
    KeySplitStep(infos, i);
    if c.isPrimaryKey {
      assert NonKeyInfos(infos[..i + 1]) == NonKeyInfos(infos[..i]);
      PiecesAppend(KeyInfos(infos[..i]), c);
      PrefixedAppend(Pairs(KeyInfos(infos[..i])), Pair(c), " AND ");
    } else {
      assert KeyInfos(infos[..i + 1]) == KeyInfos(infos[..i]);
      PiecesAppend(NonKeyInfos(infos[..i]), c);
      PrefixedAppend(Pairs(NonKeyInfos(infos[..i])), Pair(c), sep);
    }
  }

  lemma ParametersStep(infos: seq<ColumnInfo>, i: nat)
    requires i < |infos|
    ensures Parameters(infos[..i + 1]) == Parameters(infos[..i]) + [Parameter("@" + infos[i].columnName, infos[i].value)]
  {
    assert infos[..i + 1] == infos[..i] + [infos[i]];
    PiecesAppend(infos[..i], infos[i]);
  }

  /** The finished update builders, each with its leading separator dropped, give the update
      statement; an empty key builder means there is no key. */
  lemma UpdateFromBuilders(tInfo: TableInfo, infos: seq<ColumnInfo>)
    ensures var condition := KeyBuilder(infos);
            var keyValues := Prefixed(Pairs(NonKeyInfos(infos)), ",");
            (|condition| > 0 ==> |condition| >= 5) && (|keyValues| > 0 ==> |keyValues| >= 1)
            && UpdateStatement(tInfo, infos)
               == if |condition| == 0 then Err(NoPrimaryKey(tInfo.tableName))
                  else Ok(Statement("UPDATE " + tInfo.tableName + " SET " + (if |keyValues| > 0 then keyValues[1..] else keyValues)
                                    + " WHERE " + condition[5..] + ";", Parameters(infos)))
  {
    TrimmedLeading(Pairs(KeyInfos(infos)), " AND ");
    TrimmedLeading(Pairs(NonKeyInfos(infos)), ",");
  }

  /** The finished delete builders give the delete statement: the key builder when it holds
      anything, else the builder of the other columns, else no statement. */
  lemma DeleteFromBuilders(tInfo: TableInfo, infos: seq<ColumnInfo>)
    ensures var condition := KeyBuilder(infos);
            var keyValue := Prefixed(Pairs(NonKeyInfos(infos)), " AND ");
            (|condition| > 0 ==> |condition| >= 5) && (|keyValue| > 0 ==> |keyValue| >= 5)
            && DeleteStatement(tInfo, infos)
               == if |condition| > 0 then Ok(Statement("DELETE FROM " + tInfo.tableName + " WHERE " + condition[5..] + ";", Parameters(infos)))
                  else if |keyValue| > 0 then Ok(Statement("DELETE FROM " + tInfo.tableName + " WHERE " + keyValue[5..] + ";", Parameters(infos)))
                  else Err(NoPrimaryKey(tInfo.tableName))
  {
    TrimmedLeading(Pairs(KeyInfos(infos)), " AND ");
    TrimmedLeading(Pairs(NonKeyInfos(infos)), " AND ");
  }

  method GetUpdateSql(m: Instance, t: ModelType, tInfo: TableInfo) returns (r: Result<Statement>)
    ensures r == UpdateStatement(tInfo, ColumnInfos(t.props, m))
  {
    var infos := GetColumnInfos(m, t);
    var keyValues := "";
    var condition := "";
    var paramList: seq<Parameter> := [];
    var i := 0;
    while i < |infos|
      invariant 0 <= i <= |infos|
      invariant condition == KeyBuilder(infos[..i])
      invariant keyValues == Prefixed(Pairs(NonKeyInfos(infos[..i])), ",")
      invariant paramList == Parameters(infos[..i])
    {
      var c := infos[i];
      BuildersStep(infos, i, ",");
      ParametersStep(infos, i);
      var pair := Pair(c);
      if c.isPrimaryKey {
        condition := condition + " AND " + pair;
      } else {
        keyValues := keyValues + "," + pair;
      }
      paramList := paramList + [Parameter("@" + c.columnName, c.value)];
      i := i + 1;
    }
    assert infos[..i] == infos;
    UpdateFromBuilders(tInfo, infos);
    if |condition| > 0 {
      condition := condition[5..];
    } else {
      return Err(NoPrimaryKey(tInfo.tableName));
    }
    if |keyValues| > 0 {
      keyValues := keyValues[1..];
    }
    r := Ok(Statement("UPDATE " + tInfo.tableName + " SET " + keyValues + " WHERE " + condition + ";", paramList));
  }

  method GetDeleteSql(m: Instance, t: ModelType, tInfo: TableInfo) returns (r: Result<Statement>)
    ensures r == DeleteStatement(tInfo, ColumnInfos(t.props, m))
  {
    var infos := GetColumnInfos(m, t);
    var condition := "";
    var keyValue := "";
    var paramList: seq<Parameter> := [];
    var i := 0;
    while i < |infos|
      invariant 0 <= i <= |infos|
      invariant condition == KeyBuilder(infos[..i])
      invariant keyValue == Prefixed(Pairs(NonKeyInfos(infos[..i])), " AND ")
      invariant paramList == Parameters(infos[..i])
    {
      var c := infos[i];
      BuildersStep(infos, i, " AND ");
      ParametersStep(infos, i);
      var pair := Pair(c);
      if c.isPrimaryKey {
        condition := condition + " AND " + pair;
      } else {
        keyValue := keyValue + " AND " + pair;
      }
      paramList := paramList + [Parameter("@" + c.columnName, c.value)];
      i := i + 1;
    }
    assert infos[..i] == infos;
    DeleteFromBuilders(tInfo, infos);
    var conditionText;
    if |condition| > 0 {
      conditionText := condition[5..];
    } else if |keyValue| > 0 {
      conditionText := keyValue[5..];
    } else {
      return Err(NoPrimaryKey(tInfo.tableName));
    }
    r := Ok(Statement("DELETE FROM " + tInfo.tableName + " WHERE " + conditionText + ";", paramList));
  }

  // ---------------------------------------------------------------- Insert / Update / Delete

  datatype Operation = InsertRow | UpdateRow | DeleteRow

  /** `db.ExecuteNonQuery(sql, parameters)`: the affected-row count, `None` when it throws. */
  type Executor = (string, seq<Parameter>) -> Option<int>

  function StatementFor(op: Operation, tInfo: TableInfo, infos: seq<ColumnInfo>): Result<Statement>
  {
    match op
    case InsertRow => Ok(InsertStatement(tInfo, infos))
    case UpdateRow => UpdateStatement(tInfo, infos)
    case DeleteRow => DeleteStatement(tInfo, infos)
  }

  /** The extension methods `Insert`, `Update`, `Delete`: the table lookup runs outside the
      `try` and its error escapes; inside it every failure becomes `false`, and success is
      exactly one affected row. */
  function Outcome(op: Operation, m: Instance, t: ModelType, databases: set<string>, execute: Executor): Result<bool>
  {
    match GetTableInfo(t, databases)
    case Err(err) => Err(err)
    case Ok(tInfo) =>
      match StatementFor(op, tInfo, ColumnInfos(t.props, m))
      case Err(_) => Ok(false)
      case Ok(st) =>
        match execute(st.sql, st.parameters)
        case None => Ok(false)
        case Some(n) => Ok(n == 1)
  }

  /** Only an unknown or null database name escapes as an error; `true` means the statement was
      built and affected exactly one row; an update without a key, or a delete of a type with no
      columns, reports `false` without reaching the database. */
  lemma OutcomeRule(op: Operation, m: Instance, t: ModelType, databases: set<string>, execute: Executor)
    ensures Outcome(op, m, t, databases, execute).Err? <==> GetTableInfo(t, databases).Err?
    ensures Outcome(op, m, t, databases, execute) == Ok(true) <==>
              GetTableInfo(t, databases).Ok?
              && var st := StatementFor(op, GetTableInfo(t, databases).value, ColumnInfos(t.props, m));
                 st.Ok? && execute(st.value.sql, st.value.parameters) == Some(1)
    ensures GetTableInfo(t, databases).Ok? && op == UpdateRow
            && (forall c :: c in ColumnInfos(t.props, m) ==> !c.isPrimaryKey) ==>
              Outcome(op, m, t, databases, execute) == Ok(false)
  {
    if GetTableInfo(t, databases).Ok? {
      StatementErrors(GetTableInfo(t, databases).value, ColumnInfos(t.props, m));
    }
  }

  method Execute(op: Operation, m: Instance, t: ModelType, databases: set<string>, execute: Executor) returns (r: Result<bool>)
    ensures r == Outcome(op, m, t, databases, execute)
  {
    var tInfo := GetTableInfo(t, databases);
    if tInfo.Err? {
      return Err(tInfo.error);
    }
    var st;
    match op {
      case InsertRow =>
        var sql, parameters := GetInsertSql(m, t, tInfo.value);
        st := Ok(Statement(sql, parameters));
      case UpdateRow =>
        st := GetUpdateSql(m, t, tInfo.value);
      case DeleteRow =>
        st := GetDeleteSql(m, t, tInfo.value);
    }
    if st.Err? {
      return Ok(false);
    }
    var affected := execute(st.value.sql, st.value.parameters);
    r := Ok(affected.Some? && affected.value == 1);
  }

  /** `model.Insert()`. */
  method Insert(m: Instance, t: ModelType, registry: Db.Registry, execute: Executor) returns (r: Result<bool>)
    ensures r == Outcome(InsertRow, m, t, registry.databases.Keys, execute)
  {
    r := Execute(InsertRow, m, t, registry.databases.Keys, execute);
  }

  /** `model.Update()`. */
  method Update(m: Instance, t: ModelType, registry: Db.Registry, execute: Executor) returns (r: Result<bool>)
    ensures r == Outcome(UpdateRow, m, t, registry.databases.Keys, execute)
  {
    r := Execute(UpdateRow, m, t, registry.databases.Keys, execute);
  }

  /** `model.Delete()`; the statement builder looks the table up again, with the same result. */
  method Delete(m: Instance, t: ModelType, registry: Db.Registry, execute: Executor) returns (r: Result<bool>)
    ensures r == Outcome(DeleteRow, m, t, registry.databases.Keys, execute)
  {
    r := Execute(DeleteRow, m, t, registry.databases.Keys, execute);
  }
}
