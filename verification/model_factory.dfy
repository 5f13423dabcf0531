/** ORZ `ModelFactory`: a `DataRow` mapped onto a freshly constructed model through the
    case-insensitive column dictionary of `DBModel`, and a `DataTable` mapped row by row.
    `ConvertTool.ChangeType` is the `convert` parameter; `blank` is what `new T()` builds. */
module ModelFactory {
  import opened Common
  import opened Strings
  import opened Values
  import opened DbModel

  /** `row[col.ColumnName]` for the i-th column of the row's table. */
  function Cell(columns: seq<string>, row: seq<Value>, i: nat): Value
    requires |row| == |columns| && i < |columns|
  {
    row[IndexOf(columns, columns[i]).value]
  }

  /** The i-th column is assigned: the dictionary knows its name and its cell is not DBNull. */
  predicate Targets(columns: seq<string>, row: seq<Value>, cInfos: map<string, ColumnInfo>, i: nat)
    requires |row| == |columns| && i < |columns|
  {
    FoldCase(columns[i]) in cInfos && Cell(columns, row, i) != Null
  }

  /** The property the i-th column is assigned to. */
  function Target(columns: seq<string>, cInfos: map<string, ColumnInfo>, i: nat): ColumnInfo
    requires i < |columns| && FoldCase(columns[i]) in cInfos
  {
    cInfos[FoldCase(columns[i])]
  }

  /** One iteration of the column loop of `ToModel(row, cInfos)`. */
  function AssignColumn(columns: seq<string>, row: seq<Value>, i: nat, cInfos: map<string, ColumnInfo>,
                        convert: Converter, obj: Instance): Result<Instance>
    requires |row| == |columns| && i < |columns|
  {
    if !Targets(columns, row, cInfos, i) then Ok(obj)
    else
      var info := Target(columns, cInfos, i);
      match convert(Cell(columns, row, i), info.prop.propType)
      case None => Err(ConversionFailed(columns[i]))
      case Some(v) => Ok(obj[info.prop.name := v])
  }

  /** The first `n` columns visited in table order from the constructed model; a conversion
      that throws ends the mapping with its error. */
  function AssignColumns(columns: seq<string>, row: seq<Value>, n: nat, cInfos: map<string, ColumnInfo>,
                         convert: Converter, blank: Instance): Result<Instance>
    requires |row| == |columns| && n <= |columns|
    decreases n
  {
    if n == 0 then Ok(blank)
    else
      match AssignColumns(columns, row, n - 1, cInfos, convert, blank)
      case Err(err) => Err(err)
      case Ok(obj) => AssignColumn(columns, row, n - 1, cInfos, convert, obj)
  }

  predicate Converts(columns: seq<string>, row: seq<Value>, cInfos: map<string, ColumnInfo>, convert: Converter, i: nat)
    requires |row| == |columns| && i < |columns|
  {
    !Targets(columns, row, cInfos, i) || convert(Cell(columns, row, i), Target(columns, cInfos, i).prop.propType).Some?
  }

  /** Mapping fails exactly when an assigned column's cell does not convert; columns the
      dictionary does not know and DBNull cells are never converted, so they cannot fail. */
  lemma {:induction false} ToModelFailsIff(columns: seq<string>, row: seq<Value>, n: nat, cInfos: map<string, ColumnInfo>,
                                          convert: Converter, blank: Instance)
    requires |row| == |columns| && n <= |columns|
    ensures AssignColumns(columns, row, n, cInfos, convert, blank).Err?
            <==> exists i :: 0 <= i < n && !Converts(columns, row, cInfos, convert, i)
    decreases n
  {
    if n > 0 {
      ToModelFailsIff(columns, row, n - 1, cInfos, convert, blank);
      if !Converts(columns, row, cInfos, convert, n - 1) {
        assert AssignColumns(columns, row, n, cInfos, convert, blank).Err?;
      }
      if exists i :: 0 <= i < n && !Converts(columns, row, cInfos, convert, i) {
        var i :| 0 <= i < n && !Converts(columns, row, cInfos, convert, i);
        if i < n - 1 {
          assert AssignColumns(columns, row, n - 1, cInfos, convert, blank).Err?;
        }
      }
    }
  }

  /** A property no assigned column targets keeps the value the constructor gave it: DBNull
      cells and descriptors whose column is absent from the row leave it untouched. */
  lemma {:induction false} ToModelKeepsUntargeted(columns: seq<string>, row: seq<Value>, n: nat, cInfos: map<string, ColumnInfo>,
                                                 convert: Converter, blank: Instance, name: string)
    requires |row| == |columns| && n <= |columns|
    requires AssignColumns(columns, row, n, cInfos, convert, blank).Ok?
    requires forall i :: 0 <= i < n && Targets(columns, row, cInfos, i) ==> Target(columns, cInfos, i).prop.name != name
    ensures Get(AssignColumns(columns, row, n, cInfos, convert, blank).value, name) == Get(blank, name)
    decreases n
  {
    if n > 0 {
      ToModelKeepsUntargeted(columns, row, n - 1, cInfos, convert, blank, name);
    }
  }

  /** An assigned column that no later column overrides leaves its converted cell in the model. */
  lemma {:induction false} ToModelAssigns(columns: seq<string>, row: seq<Value>, n: nat, cInfos: map<string, ColumnInfo>,
                                         convert: Converter, blank: Instance, i: nat)
    requires |row| == |columns| && i < n <= |columns|
    requires AssignColumns(columns, row, n, cInfos, convert, blank).Ok?
    requires Targets(columns, row, cInfos, i)
    requires forall j :: i < j < n && Targets(columns, row, cInfos, j) ==>
               Target(columns, cInfos, j).prop.name != Target(columns, cInfos, i).prop.name
    ensures var info := Target(columns, cInfos, i);
            Some(Get(AssignColumns(columns, row, n, cInfos, convert, blank).value, info.prop.name))
            == convert(Cell(columns, row, i), info.prop.propType)
    decreases n
  {
    if i < n - 1 {
      ToModelAssigns(columns, row, n - 1, cInfos, convert, blank, i);
    }
  }

  lemma {:induction false} AssignColumnsErrStays(columns: seq<string>, row: seq<Value>, n: nat, cInfos: map<string, ColumnInfo>,
                                                convert: Converter, blank: Instance)
    requires |row| == |columns| && n <= |columns|
    requires AssignColumns(columns, row, n, cInfos, convert, blank).Err?
    ensures AssignColumns(columns, row, |columns|, cInfos, convert, blank) == AssignColumns(columns, row, n, cInfos, convert, blank)
    decreases |columns| - n
  {
    if n < |columns| {
      AssignColumnsErrStays(columns, row, n + 1, cInfos, convert, blank);
    }
  }

  /** `row.ToModel<T>(cInfos)`. */
  method ToModel(columns: seq<string>, row: seq<Value>, cInfos: map<string, ColumnInfo>, convert: Converter, blank: Instance)
    returns (r: Result<Instance>)
    requires |row| == |columns|
    ensures r == AssignColumns(columns, row, |columns|, cInfos, convert, blank)
  {
    var model := blank;
    var i := 0;
    while i < |columns|
      invariant 0 <= i <= |columns|
      invariant AssignColumns(columns, row, i, cInfos, convert, blank) == Ok(model)
    {
      var col := columns[i];
      if FoldCase(col) in cInfos {
        var value := row[IndexOf(columns, col).value];
        if value != Null {
          var info := cInfos[FoldCase(col)];
          var v := convert(value, info.prop.propType);
          if v.None? {
            AssignColumnsErrStays(columns, row, i + 1, cInfos, convert, blank);
            return Err(ConversionFailed(col));
          }
          model := model[info.prop.name := v.value];
        }
      }
      i := i + 1;
    }
    r := Ok(model);
  }

  /** `row.ToModel<T>()`: the dictionary is built from the type first. */
  method ToModelOf(columns: seq<string>, row: seq<Value>, t: ModelType, convert: Converter, blank: Instance)
    returns (r: Result<Instance>)
    requires |row| == |columns|
    ensures r == AssignColumns(columns, row, |columns|, ColumnDict(t.props), convert, blank)
  {
    var cInfos := GetColumnDict(t);
    r := ToModel(columns, row, cInfos, convert, blank);
  }

  /** `table.ToModelList<T>()` once the dictionary is known: one model per row, in row order. */
  function ModelsOf(table: DataTable, n: nat, cInfos: map<string, ColumnInfo>, convert: Converter, blank: Instance)
    : Result<seq<Instance>>
    requires WellFormed(table) && n <= |table.rows|
    decreases n
  {
    if n == 0 then Ok([])
    else
      match ModelsOf(table, n - 1, cInfos, convert, blank)
      case Err(err) => Err(err)
      case Ok(models) =>
        match AssignColumns(table.columns, table.rows[n - 1], |table.columns|, cInfos, convert, blank)
        case Err(err) => Err(err)
        case Ok(obj) => Ok(models + [obj])
  }

  /** A successful list has one model per row, the k-th mapped from the k-th row. */
  lemma {:induction false} ModelsOfRowByRow(table: DataTable, n: nat, cInfos: map<string, ColumnInfo>, convert: Converter, blank: Instance)
    requires WellFormed(table) && n <= |table.rows|
    requires ModelsOf(table, n, cInfos, convert, blank).Ok?
    ensures var models := ModelsOf(table, n, cInfos, convert, blank).value;
            |models| == n
            && forall k :: 0 <= k < n ==>
                 AssignColumns(table.columns, table.rows[k], |table.columns|, cInfos, convert, blank) == Ok(models[k])
    decreases n
  {
    if n > 0 {
      ModelsOfRowByRow(table, n - 1, cInfos, convert, blank);
    }
  }

  lemma {:induction false} ModelsOfErrStays(table: DataTable, n: nat, cInfos: map<string, ColumnInfo>, convert: Converter, blank: Instance)
    requires WellFormed(table) && n <= |table.rows|
    requires ModelsOf(table, n, cInfos, convert, blank).Err?
    ensures ModelsOf(table, |table.rows|, cInfos, convert, blank) == ModelsOf(table, n, cInfos, convert, blank)
    decreases |table.rows| - n
  {
    if n < |table.rows| {
      ModelsOfErrStays(table, n + 1, cInfos, convert, blank);
    }
  }

  /** `table.ToModelList<T>()`: the dictionary is computed once, then every row is mapped. */
  method ToModelList(table: DataTable, t: ModelType, convert: Converter, blank: Instance)
    returns (r: Result<seq<Instance>>)
    requires WellFormed(table)
    ensures r == ModelsOf(table, |table.rows|, ColumnDict(t.props), convert, blank)
    ensures |table.rows| == 0 ==> r == Ok([])
  {
    var list: seq<Instance> := [];
    var cInfos := GetColumnDict(t);
    var i := 0;
    while i < |table.rows|
      invariant 0 <= i <= |table.rows|
      invariant ModelsOf(table, i, cInfos, convert, blank) == Ok(list)
    {
      var model := ToModel(table.columns, table.rows[i], cInfos, convert, blank);
      if model.Err? {
        ModelsOfErrStays(table, i + 1, cInfos, convert, blank);
        return Err(model.error);
      }
      list := list + [model.value];
      i := i + 1;
    }
    r := Ok(list);
  }
}
