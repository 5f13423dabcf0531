/** DBLib/Attributes/AttributeFunc.cs: the first generation's metadata extraction,
    SQL text builders and row mapping. Reflection is replaced by an explicit list of a
    type's properties, each with the column attributes it carries, in declaration order. */
module AttributeFunc {
  import opened Common
  import opened Strings
  import opened Values
  import opened DbLibAttributes

  /** A public property: its name, declared type and the ColumnAttributes attached to it. */
  datatype Property = Property(name: string, propType: PropType, columnAttrs: seq<ColumnAttribute>)

  /** A model type: full name, attached TableAttributes and public properties in declaration order. */
  datatype ModelType = ModelType(fullName: string, tableAttrs: seq<TableAttribute>, props: seq<Property>)

  /** One entry of the `Dictionary<PropertyInfo, ColumnAttribute>`; the dictionary is only ever
      filled by appending distinct properties, so it iterates in insertion order and is a sequence here. */
  datatype Entry = Entry(prop: Property, col: ColumnAttribute)

  /** A `DbParameter` as `GetDbParametesr` fills it. */
  datatype DbParam = DbParam(name: string, dbType: DbType, value: Value)

  // ---------------------------------------------------------------- metadata

  /** A property takes part in mapping when exactly one ColumnAttribute is attached. */
  predicate IsMapped(p: Property)
  {
    |p.columnAttrs| == 1
  }

  /** The entries the extraction loop keeps, in declaration order. */
  function ColumnEntries(props: seq<Property>): (es: seq<Entry>)
    ensures |es| <= |props|
    decreases |props|
  {
    if |props| == 0 then []
    else
      var p := props[|props| - 1];
      ColumnEntries(props[..|props| - 1]) + (if IsMapped(p) then [Entry(p, p.columnAttrs[0])] else [])
  }

  /** An entry is kept exactly for a mapped property, paired with its one attribute. */
  lemma {:induction false} ColumnEntriesExactly(props: seq<Property>)
    ensures forall e :: e in ColumnEntries(props) <==>
              e.prop in props && IsMapped(e.prop) && e.col == e.prop.columnAttrs[0]
    decreases |props|
  {
    if |props| > 0 {
      ColumnEntriesExactly(props[..|props| - 1]);
      assert props == props[..|props| - 1] + [props[|props| - 1]];
    }
  }

  lemma ColumnEntriesStep(props: seq<Property>, i: nat)
    requires i < |props|
    ensures ColumnEntries(props[..i + 1])
            == ColumnEntries(props[..i]) + (if IsMapped(props[i]) then [Entry(props[i], props[i].columnAttrs[0])] else [])
  {
    assert props[..i + 1][..i] == props[..i];
  }

  /** Extraction finds nothing exactly when no property is mapped. */
  lemma NoEntriesIffNoneMapped(props: seq<Property>)
    ensures ColumnEntries(props) == [] <==> forall p :: p in props ==> !IsMapped(p)
  {
    ColumnEntriesExactly(props);
    if exists p :: p in props && IsMapped(p) {
      var p :| p in props && IsMapped(p);
      assert Entry(p, p.columnAttrs[0]) in ColumnEntries(props);
    }
  }

  function Columns(es: seq<Entry>): (cs: seq<ColumnAttribute>)
  {
    seq(|es|, i requires 0 <= i < |es| => es[i].col)
  }

  /** `GetColumnList`: the attribute of every mapped property; ArgumentException when there is none. */
  method GetColumnList(t: ModelType) returns (r: Result<seq<ColumnAttribute>>)
    ensures r.Err? <==> forall p :: p in t.props ==> !IsMapped(p)
    ensures r.Err? ==> r.error == MissingColumnAttribute(t.fullName)
    ensures r.Ok? ==> r.value == Columns(ColumnEntries(t.props))
  {
    var list: seq<ColumnAttribute> := [];
    var i := 0;
    while i < |t.props|
      invariant 0 <= i <= |t.props|
      invariant list == Columns(ColumnEntries(t.props[..i]))
    {
      var p := t.props[i];
      assert t.props[..i + 1][..i] == t.props[..i];
      if |p.columnAttrs| == 1 {
        list := list + [p.columnAttrs[0]];
      }
      i := i + 1;
    }
    assert t.props[..i] == t.props;
    NoEntriesIffNoneMapped(t.props);
    if |list| > 0 {
      r := Ok(list);
    } else {
      r := Err(MissingColumnAttribute(t.fullName));
    }
  }

  /** `GetColumnDictionary`: the (property, attribute) entries of the mapped properties in
      declaration order; ArgumentException when there is none. */
  method GetColumnDictionary(t: ModelType) returns (r: Result<seq<Entry>>)
    ensures r.Err? <==> forall p :: p in t.props ==> !IsMapped(p)
    ensures r.Err? ==> r.error == MissingColumnAttribute(t.fullName)
    ensures r.Ok? ==> r.value == ColumnEntries(t.props) && |r.value| > 0
  {
    var dict: seq<Entry> := [];
    var i := 0;
    while i < |t.props|
      invariant 0 <= i <= |t.props|
      invariant dict == ColumnEntries(t.props[..i])
    {
      var p := t.props[i];
      assert t.props[..i + 1][..i] == t.props[..i];
      if |p.columnAttrs| == 1 {
        dict := dict + [Entry(p, p.columnAttrs[0])];
      }
      i := i + 1;
    }
    assert t.props[..i] == t.props;
    NoEntriesIffNoneMapped(t.props);
    if |dict| > 0 {
      r := Ok(dict);
    } else {
      r := Err(MissingColumnAttribute(t.fullName));
    }
  }

  /** `GetTableAttribute`: the type's TableAttribute when exactly one is attached. */
  function GetTableAttribute(t: ModelType): (r: Result<TableAttribute>)
    ensures r.Ok? <==> |t.tableAttrs| == 1
    ensures r.Ok? ==> r.value == t.tableAttrs[0]
    ensures r.Err? ==> r.error == MissingTableAttribute(t.fullName)
  {
    if |t.tableAttrs| == 1 then Ok(t.tableAttrs[0]) else Err(MissingTableAttribute(t.fullName))
  }

  // ---------------------------------------------------------------- literal values

  /** `(bool)value` on a Boolean column whose value is not a boolean throws InvalidCastException. */
  predicate BadBoolean(col: ColumnAttribute, v: Value)
  {
    col.dataType == Boolean && v != Null && !v.Bool?
  }

  /** How a value is written into literal INSERT/UPDATE text. */
  function Literal(col: ColumnAttribute, v: Value): string
    requires !BadBoolean(col, v)
  {
    if v == Null then "NULL"
    else if col.dataType == Boolean then (if v.b then "1" else "0")
    else if IsNumeric(ToText(v)) then ToText(v)
    else "'" + ToText(v) + "'"
  }

  /** Strips one pair of enclosing single quotes. */
  function Unquote(s: string): string
  {
    if |s| >= 2 && s[0] == '\'' && s[|s| - 1] == '\'' then s[1..|s| - 1] else s
  }

  /** For a non-Boolean column a literal is quoted exactly when its text is not numeric,
      and removing the quotes gives back the value's text. */
  lemma LiteralRoundTrip(col: ColumnAttribute, v: Value)
    requires col.dataType != Boolean && v != Null
    ensures Unquote(Literal(col, v)) == ToText(v)
    ensures Literal(col, v) == ToText(v) <==> IsNumeric(ToText(v))
  {
    NumericTextStart(ToText(v));
  }

  /** A Boolean column writes `1` or `0`, and nothing else. */
  lemma BooleanLiteral(col: ColumnAttribute, v: Value)
    requires col.dataType == Boolean && v.Bool?
    ensures IsNumeric(Literal(col, v)) && Unquote(Literal(col, v)) == Literal(col, v)
    ensures Literal(col, v) == "1" <==> v.b
  {
    assert IsNumeric("1") && IsNumeric("0");
  }

  /** Some entry's value cannot be written as a literal: rendering throws `InvalidCastException`. */
  predicate RenderFails(es: seq<Entry>, m: Instance)
    decreases |es|
  {
    |es| > 0
    && (RenderFails(es[..|es| - 1], m) || BadBoolean(es[|es| - 1].col, Get(m, es[|es| - 1].prop.name)))
  }

  lemma {:induction false} RenderFailsIffSome(es: seq<Entry>, m: Instance)
    ensures RenderFails(es, m) <==> exists e :: e in es && BadBoolean(e.col, Get(m, e.prop.name))
    decreases |es|
  {
    if |es| > 0 {
      RenderFailsIffSome(es[..|es| - 1], m);
      assert es == es[..|es| - 1] + [es[|es| - 1]];
    }
  }

  lemma RenderFailsAppend(es: seq<Entry>, e: Entry, m: Instance)
    ensures RenderFails(es + [e], m) <==> RenderFails(es, m) || BadBoolean(e.col, Get(m, e.prop.name))
  {
    assert (es + [e])[..|es|] == es;
  }

  function Names(es: seq<Entry>): seq<string>
  {
    seq(|es|, i requires 0 <= i < |es| => es[i].col.name)
  }

  function Literals(es: seq<Entry>, m: Instance): seq<string>
    requires !RenderFails(es, m)
  {
    seq(|es|, i requires 0 <= i < |es| => RenderFailsIffSome(es, m); assert es[i] in es; Literal(es[i].col, Get(m, es[i].prop.name)))
  }

  // ---------------------------------------------------------------- literal INSERT

  predicate IsAutoKey(col: ColumnAttribute)
  {
    col.primaryKey && col.autoIncrement
  }

  /** Literal insert skips auto-increment primary keys and null values. */
  predicate SkippedByInsert(e: Entry, m: Instance)
  {
    IsAutoKey(e.col) || Get(m, e.prop.name) == Null
  }

  function InsertEntries(dict: seq<Entry>, m: Instance): (kept: seq<Entry>)
    ensures |kept| <= |dict|
    decreases |dict|
  {
    if |dict| == 0 then []
    else
      var e := dict[|dict| - 1];
      InsertEntries(dict[..|dict| - 1], m) + (if SkippedByInsert(e, m) then [] else [e])
  }

  /** Literal insert keeps exactly the entries that are neither auto-increment keys nor null. */
  lemma {:induction false} InsertEntriesExactly(dict: seq<Entry>, m: Instance)
    ensures forall e :: e in InsertEntries(dict, m) <==> e in dict && !SkippedByInsert(e, m)
    decreases |dict|
  {
    if |dict| > 0 {
      InsertEntriesExactly(dict[..|dict| - 1], m);
      assert dict == dict[..|dict| - 1] + [dict[|dict| - 1]];
    }
  }

  /** What `GetInsertSQL(model, table, columnDict)` returns or throws. */
  function InsertSql(m: Instance, table: TableAttribute, dict: seq<Entry>): Result<string>
  {
    var kept := InsertEntries(dict, m);
    if RenderFails(kept, m) then Err(InvalidCast)
    else if |kept| == 0 then Err(RemoveOutOfRange)
    else Ok("insert into " + table.name + " (" + Join(",", Names(kept)) + ") values ("
            + Join(",", Literals(kept, m)) + ");")
  }

  /** The column list and the value list of a literal insert pair up position by position. */
  lemma InsertListsAlign(m: Instance, dict: seq<Entry>)
    requires !RenderFails(InsertEntries(dict, m), m)
    ensures var kept := InsertEntries(dict, m);
            |Names(kept)| == |Literals(kept, m)| == |kept|
            && forall k :: 0 <= k < |kept| ==>
                 kept[k] in dict && !IsAutoKey(kept[k].col) && Get(m, kept[k].prop.name) != Null
                 && !BadBoolean(kept[k].col, Get(m, kept[k].prop.name))
                 && Names(kept)[k] == kept[k].col.name
                 && Literals(kept, m)[k] == Literal(kept[k].col, Get(m, kept[k].prop.name))
  {
    var kept := InsertEntries(dict, m);
    InsertEntriesExactly(dict, m);
    RenderFailsIffSome(kept, m);
    forall k | 0 <= k < |kept|
      ensures kept[k] in dict && !SkippedByInsert(kept[k], m) && !BadBoolean(kept[k].col, Get(m, kept[k].prop.name))
    {
      assert kept[k] in kept;
    }
  }

  lemma InsertEntriesStep(dict: seq<Entry>, i: nat, m: Instance)
    requires i < |dict|
    ensures InsertEntries(dict[..i + 1], m)
            == InsertEntries(dict[..i], m) + (if SkippedByInsert(dict[i], m) then [] else [dict[i]])
  {
    assert dict[..i + 1][..i] == dict[..i];
  }

  lemma NamesAppend(es: seq<Entry>, e: Entry)
    ensures Names(es + [e]) == Names(es) + [e.col.name]
  {
  }

  /** When the list renders, every entry renders on its own and the k-th literal is that entry's. */
  lemma LiteralAt(es: seq<Entry>, m: Instance, k: nat)
    requires k < |es| && !RenderFails(es, m)
    ensures !BadBoolean(es[k].col, Get(m, es[k].prop.name))
    ensures Literals(es, m)[k] == Literal(es[k].col, Get(m, es[k].prop.name))
  {
    RenderFailsIffSome(es, m);
    assert es[k] in es;
  }

  lemma LiteralsAppend(es: seq<Entry>, e: Entry, m: Instance)
    requires !RenderFails(es, m) && !BadBoolean(e.col, Get(m, e.prop.name))
    ensures !RenderFails(es + [e], m)
    ensures Literals(es + [e], m) == Literals(es, m) + [Literal(e.col, Get(m, e.prop.name))]
  {
    RenderFailsAppend(es, e, m);
  }

  /** The two builders of `GetInsertSQL` after the first `i` entries: no value so far fails to
      render, and each builder holds one comma-terminated item per kept entry. */
  predicate InsertBuilt(dict: seq<Entry>, i: nat, m: Instance, columns: string, values: string)
    requires i <= |dict|
  {
    var kept := InsertEntries(dict[..i], m);
    !RenderFails(kept, m)
    && columns == Suffixed(Names(kept), ",")
    && values == Suffixed(Literals(kept, m), ",")
  }

  /** One entry of the literal insert loop: a skipped entry changes nothing, a non-Boolean
      value in a Boolean column makes the whole insert throw, and any other entry adds its
      column name and its literal to the two builders. */
  lemma LiteralInsertStep(dict: seq<Entry>, i: nat, m: Instance, columns: string, values: string)
    requires i < |dict| && InsertBuilt(dict, i, m, columns, values)
    ensures var e := dict[i];
            (SkippedByInsert(e, m) ==> InsertBuilt(dict, i + 1, m, columns, values))
            && (!SkippedByInsert(e, m) && BadBoolean(e.col, Get(m, e.prop.name)) ==> RenderFails(InsertEntries(dict, m), m))
            && (!SkippedByInsert(e, m) && !BadBoolean(e.col, Get(m, e.prop.name)) ==>
                  InsertBuilt(dict, i + 1, m, columns + e.col.name + ",",
                              values + Literal(e.col, Get(m, e.prop.name)) + ","))
  {
    var e := dict[i];
    var before := InsertEntries(dict[..i], m);
    InsertEntriesStep(dict, i, m);
    if SkippedByInsert(e, m) {
      assert InsertEntries(dict[..i + 1], m) == before + [];
      assert InsertEntries(dict[..i + 1], m) == before;
    } else if BadBoolean(e.col, Get(m, e.prop.name)) {
      InsertEntriesExactly(dict, m);
      RenderFailsIffSome(InsertEntries(dict, m), m);
      assert e in InsertEntries(dict, m);
    } else {
      NamesAppend(before, e);
      LiteralsAppend(before, e, m);
      SuffixedAppend(Names(before), e.col.name, ",");
      SuffixedAppend(Literals(before, m), Literal(e.col, Get(m, e.prop.name)), ",");
    }
  }

  /** Trimming the finished builders' trailing commas gives the insert text; an empty column
      builder makes the trim throw. */
  lemma LiteralInsertFromBuilders(m: Instance, table: TableAttribute, dict: seq<Entry>)
    requires !RenderFails(InsertEntries(dict, m), m)
    ensures var kept := InsertEntries(dict, m);
            var columns := Suffixed(Names(kept), ",");
            var values := Suffixed(Literals(kept, m), ",");
            (|columns| > 0 ==> |values| > 0)
            && InsertSql(m, table, dict)
               == if |columns| == 0 then Err(RemoveOutOfRange)
                  else Ok("insert into " + table.name + " (" + columns[..|columns| - 1] + ") values ("
                          + values[..|values| - 1] + ");")
  {
    var kept := InsertEntries(dict, m);
    TrimmedTrailing(Names(kept), ",");
    TrimmedTrailing(Literals(kept, m), ",");
  }

  /** `GetInsertSQL(model, table, columnDict)`. */
  method GetInsertSql(m: Instance, table: TableAttribute, dict: seq<Entry>) returns (r: Result<string>)
    ensures r == InsertSql(m, table, dict)
  {
    var columns := "";
    var values := "";
    var i := 0;
    while i < |dict|
      invariant 0 <= i <= |dict|
      invariant InsertBuilt(dict, i, m, columns, values)
    {
      var e := dict[i];
      LiteralInsertStep(dict, i, m, columns, values);
      var value := Get(m, e.prop.name);
      if !IsAutoKey(e.col) && value != Null {
        var valueStr := ToText(value);
        if e.col.dataType == Boolean {
          if !value.Bool? {
            return Err(InvalidCast);
          }
          valueStr := if value.b then "1" else "0";
        } else if !IsNumeric(valueStr) {
          valueStr := "'" + valueStr + "'";
        }
        assert valueStr == Literal(e.col, value);
        columns := columns + e.col.name + ",";
        values := values + valueStr + ",";
      }
      i := i + 1;
    }
    assert dict[..i] == dict;
    assert InsertBuilt(dict, |dict|, m, columns, values);
    LiteralInsertFromBuilders(m, table, dict);
    if |columns| == 0 {
      // columns.Remove(columns.Length - 1, 1) on an empty builder
      return Err(RemoveOutOfRange);
    }
    columns := columns[..|columns| - 1];
    values := values[..|values| - 1];
    r := Ok("insert into " + table.name + " (" + columns + ") values (" + values + ");");
  }

  // ---------------------------------------------------------------- literal UPDATE

  /** Primary-key entries, in dictionary order: they form the WHERE clause. */
  function KeyEntries(dict: seq<Entry>): (ks: seq<Entry>)
    ensures |ks| <= |dict|
    decreases |dict|
  {
    if |dict| == 0 then []
    else
      var e := dict[|dict| - 1];
      KeyEntries(dict[..|dict| - 1]) + (if e.col.primaryKey then [e] else [])
  }

  /** The other entries, in dictionary order: they form the SET clause. */
  function NonKeyEntries(dict: seq<Entry>): (ns: seq<Entry>)
    ensures |ns| <= |dict|
    decreases |dict|
  {
    if |dict| == 0 then []
    else
      var e := dict[|dict| - 1];
      NonKeyEntries(dict[..|dict| - 1]) + (if e.col.primaryKey then [] else [e])
  }

  /** Every entry lands in exactly one clause: keys in WHERE, the rest in SET. */
  lemma {:induction false} KeySplitExactly(dict: seq<Entry>)
    ensures forall e :: e in KeyEntries(dict) <==> e in dict && e.col.primaryKey
    ensures forall e :: e in NonKeyEntries(dict) <==> e in dict && !e.col.primaryKey
    ensures |KeyEntries(dict)| + |NonKeyEntries(dict)| == |dict|
    decreases |dict|
  {
    if |dict| > 0 {
      KeySplitExactly(dict[..|dict| - 1]);
      assert dict == dict[..|dict| - 1] + [dict[|dict| - 1]];
    }
  }

  /** When every entry renders, so does every entry of either clause. */
  lemma {:induction false} RenderableSplit(dict: seq<Entry>, m: Instance)
    requires !RenderFails(dict, m)
    ensures !RenderFails(KeyEntries(dict), m) && !RenderFails(NonKeyEntries(dict), m)
    decreases |dict|
  {
    if |dict| > 0 {
      var init, e := dict[..|dict| - 1], dict[|dict| - 1];
      RenderableSplit(init, m);
      if e.col.primaryKey {
        assert KeyEntries(dict) == KeyEntries(init) + [e];
        assert NonKeyEntries(dict) == NonKeyEntries(init);
        RenderFailsAppend(KeyEntries(init), e, m);
      } else {
        assert KeyEntries(dict) == KeyEntries(init);
        assert NonKeyEntries(dict) == NonKeyEntries(init) + [e];
        RenderFailsAppend(NonKeyEntries(init), e, m);
      }
    }
  }

  lemma KeySplitStep(dict: seq<Entry>, i: nat)
    requires i < |dict|
    ensures KeyEntries(dict[..i + 1]) == KeyEntries(dict[..i]) + (if dict[i].col.primaryKey then [dict[i]] else [])
    ensures NonKeyEntries(dict[..i + 1]) == NonKeyEntries(dict[..i]) + (if dict[i].col.primaryKey then [] else [dict[i]])
  {
    assert dict[..i + 1][..i] == dict[..i];
  }

  function UpdatePair(e: Entry, m: Instance): string
    requires !BadBoolean(e.col, Get(m, e.prop.name))
  {
    e.col.name + " = " + Literal(e.col, Get(m, e.prop.name))
  }

  function UpdatePairs(es: seq<Entry>, m: Instance): (ps: seq<string>)
    requires !RenderFails(es, m)
    ensures |ps| == |es| && forall k :: 0 <= k < |ps| ==> |ps[k]| >= 3
  {
    seq(|es|, i requires 0 <= i < |es| => RenderFailsIffSome(es, m); assert es[i] in es; UpdatePair(es[i], m))
  }

  lemma UpdatePairsAppend(es: seq<Entry>, e: Entry, m: Instance)
    requires !RenderFails(es, m) && !BadBoolean(e.col, Get(m, e.prop.name))
    ensures !RenderFails(es + [e], m)
    ensures UpdatePairs(es + [e], m) == UpdatePairs(es, m) + [UpdatePair(e, m)]
  {
    RenderFailsAppend(es, e, m);
  }

  /** What `GetUpdateSQL(model, table, columnDict)` returns or throws. Without a primary key
      there is no WHERE clause at all. */
  function UpdateSql(m: Instance, table: TableAttribute, dict: seq<Entry>): Result<string>
  {
    if RenderFails(dict, m) then Err(InvalidCast)
    else
      RenderableSplit(dict, m);
      var head := "UPDATE " + table.name + " SET " + Join(", ", UpdatePairs(NonKeyEntries(dict), m));
      var where := UpdatePairs(KeyEntries(dict), m);
      Ok((if |where| == 0 then head else head + " WHERE " + Join(" AND ", where)) + ";")
  }

  /** A builder that prefixes every part with `sep`, with its first `|sep|` characters removed
      when it is longer than that, is the plain join; it is empty exactly when there are no parts. */
  lemma TrimmedBuilder(parts: seq<string>, sep: string)
    requires |parts| > 0 ==> |parts[|parts| - 1]| > 0
    ensures var b := Prefixed(parts, sep);
            var t := if |b| > |sep| then b[|sep|..] else b;
            t == Join(sep, parts) && (|t| == 0 <==> |parts| == 0)
  {
    if |parts| > 0 {
      PrefixedIsJoin(parts, sep);
      JoinCoversLast(sep, parts);
    }
  }

  /** The SET builder of `GetUpdateSQL` once `es` has been visited: `, name = literal` per non-key entry. */
  function SetBuilder(es: seq<Entry>, m: Instance): string
    requires !RenderFails(es, m)
  {
    RenderableSplit(es, m);
    Prefixed(UpdatePairs(NonKeyEntries(es), m), ", ")
  }

  /** The WHERE builder of `GetUpdateSQL` once `es` has been visited: ` AND name = literal` per key. */
  function WhereBuilder(es: seq<Entry>, m: Instance): string
    requires !RenderFails(es, m)
  {
    RenderableSplit(es, m);
    Prefixed(UpdatePairs(KeyEntries(es), m), " AND ")
  }

  /** Visiting one more entry appends its pair to exactly one of the two builders. */
  lemma UpdateBuildersStep(dict: seq<Entry>, i: nat, m: Instance)
    requires i < |dict| && !RenderFails(dict[..i], m)
    requires !BadBoolean(dict[i].col, Get(m, dict[i].prop.name))
    ensures !RenderFails(dict[..i + 1], m)
    ensures dict[i].col.primaryKey ==>
              SetBuilder(dict[..i + 1], m) == SetBuilder(dict[..i], m)
              && WhereBuilder(dict[..i + 1], m) == WhereBuilder(dict[..i], m) + " AND " + UpdatePair(dict[i], m)
    ensures !dict[i].col.primaryKey ==>
              SetBuilder(dict[..i + 1], m) == SetBuilder(dict[..i], m) + ", " + UpdatePair(dict[i], m)
              && WhereBuilder(dict[..i + 1], m) == WhereBuilder(dict[..i], m)
  {
    var e := dict[i];
    assert dict[..i + 1] == dict[..i] + [e];
    RenderFailsAppend(dict[..i], e, m);
    KeySplitStep(dict, i);
    RenderableSplit(dict[..i], m);
    RenderableSplit(dict[..i + 1], m);
    if e.col.primaryKey {
      assert NonKeyEntries(dict[..i + 1]) == NonKeyEntries(dict[..i]);
      assert KeyEntries(dict[..i + 1]) == KeyEntries(dict[..i]) + [e];
      UpdatePairsAppend(KeyEntries(dict[..i]), e, m);
      PrefixedAppend(UpdatePairs(KeyEntries(dict[..i]), m), UpdatePair(e, m), " AND ");
    } else {
      assert KeyEntries(dict[..i + 1]) == KeyEntries(dict[..i]);
      assert NonKeyEntries(dict[..i + 1]) == NonKeyEntries(dict[..i]) + [e];
      UpdatePairsAppend(NonKeyEntries(dict[..i]), e, m);
      PrefixedAppend(UpdatePairs(NonKeyEntries(dict[..i]), m), UpdatePair(e, m), ", ");
    }
  }

  /** Trimming the two finished builders as `GetUpdateSQL` does gives the update text. */
  lemma UpdateSqlFromBuilders(m: Instance, table: TableAttribute, dict: seq<Entry>)
    requires !RenderFails(dict, m)
    ensures var kv := SetBuilder(dict, m);
            var c := WhereBuilder(dict, m);
            var kv' := if |kv| > 2 then kv[2..] else kv;
            var c' := if |c| > 5 then c[5..] else c;
            var head := "UPDATE " + table.name + " SET " + kv';
            UpdateSql(m, table, dict) == Ok((if |c'| != 0 then head + " WHERE " + c' else head) + ";")
  {
    RenderableSplit(dict, m);
    TrimmedBuilder(UpdatePairs(NonKeyEntries(dict), m), ", ");
    TrimmedBuilder(UpdatePairs(KeyEntries(dict), m), " AND ");
  }

  /** `GetUpdateSQL(model, table, columnDict)`. */
  method GetUpdateSql(m: Instance, table: TableAttribute, dict: seq<Entry>) returns (r: Result<string>)
    ensures r == UpdateSql(m, table, dict)
  {
    var keyValues := "";
    var condition := "";
    var i := 0;
    while i < |dict|
      invariant 0 <= i <= |dict|
      invariant !RenderFails(dict[..i], m)
      invariant keyValues == SetBuilder(dict[..i], m)
      invariant condition == WhereBuilder(dict[..i], m)
    {
      var e := dict[i];
      var value := Get(m, e.prop.name);
      var valueStr;
      if value == Null {
        valueStr := "NULL";
      } else if e.col.dataType == Boolean {
        if !value.Bool? {
          RenderFailsIffSome(dict, m);
          assert e in dict;
          return Err(InvalidCast);
        }
        valueStr := if value.b then "1" else "0";
      } else if !IsNumeric(ToText(value)) {
        valueStr := "'" + ToText(value) + "'";
      } else {
        valueStr := ToText(value);
      }
      var kvStr := e.col.name + " = " + valueStr;
      assert kvStr == UpdatePair(e, m);
      UpdateBuildersStep(dict, i, m);
      if e.col.primaryKey {
        condition := condition + " AND " + kvStr;
      } else {
        keyValues := keyValues + ", " + kvStr;
      }
      i := i + 1;
    }
    assert dict[..i] == dict;
    UpdateSqlFromBuilders(m, table, dict);
    if |keyValues| > 2 {
      keyValues := keyValues[2..];
    }
    if |condition| > 5 {
      condition := condition[5..];
    }
    var sql := "UPDATE " + table.name + " SET " + keyValues;
    if |condition| != 0 {
      sql := sql + " WHERE " + condition;
    }
    r := Ok(sql + ";");
  }

  // ---------------------------------------------------------------- parameterised INSERT / UPDATE

  /** The entries a parameterised insert names: all but auto-increment primary keys. */
  function WithoutAutoKeys(dict: seq<Entry>): (ws: seq<Entry>)
    ensures |ws| <= |dict|
    decreases |dict|
  {
    if |dict| == 0 then []
    else
      var e := dict[|dict| - 1];
      WithoutAutoKeys(dict[..|dict| - 1]) + (if IsAutoKey(e.col) then [] else [e])
  }

  lemma {:induction false} WithoutAutoKeysExactly(dict: seq<Entry>)
    ensures forall e :: e in WithoutAutoKeys(dict) <==> e in dict && !IsAutoKey(e.col)
    decreases |dict|
  {
    if |dict| > 0 {
      WithoutAutoKeysExactly(dict[..|dict| - 1]);
      assert dict == dict[..|dict| - 1] + [dict[|dict| - 1]];
    }
  }

  function Placeholders(es: seq<Entry>): seq<string>
  {
    seq(|es|, i requires 0 <= i < |es| => "@" + es[i].col.name)
  }

  /** `GetInsertSQL_UseParameters`: an empty column set gives empty `()` lists, not an error. */
  function InsertSqlUseParameters(tableName: string, dict: seq<Entry>): string
  {
    var ws := WithoutAutoKeys(dict);
    "INSERT INTO " + tableName + " (" + Join(",", Names(ws)) + ") VALUES (" + Join(",", Placeholders(ws)) + ");"
  }

  /** One entry of the parameterised insert loop: an auto-increment key adds nothing, any other
      entry adds its name to the column builder and its placeholder to the value builder. */
  lemma InsertParamsStep(dict: seq<Entry>, i: nat)
    requires i < |dict|
    ensures var before := WithoutAutoKeys(dict[..i]);
            var after := WithoutAutoKeys(dict[..i + 1]);
            (IsAutoKey(dict[i].col) ==> after == before)
            && (!IsAutoKey(dict[i].col) ==>
                  Suffixed(Names(after), ",") == Suffixed(Names(before), ",") + dict[i].col.name + ","
                  && Suffixed(Placeholders(after), ",") == Suffixed(Placeholders(before), ",") + ("@" + dict[i].col.name) + ",")
  {
    assert dict[..i + 1][..i] == dict[..i];
    var before := WithoutAutoKeys(dict[..i]);
    var e := dict[i];
    if !IsAutoKey(e.col) {
      assert Names(before + [e]) == Names(before) + [e.col.name];
      assert Placeholders(before + [e]) == Placeholders(before) + ["@" + e.col.name];
      SuffixedAppend(Names(before), e.col.name, ",");
      SuffixedAppend(Placeholders(before), "@" + e.col.name, ",");
    }
  }

  /** Trimming the finished builders' trailing commas (both when the column builder holds
      anything) gives the parameterised insert text. */
  lemma InsertParamsFromBuilders(tableName: string, dict: seq<Entry>)
    ensures var ws := WithoutAutoKeys(dict);
            var cols := Suffixed(Names(ws), ",");
            var vals := Suffixed(Placeholders(ws), ",");
            (|cols| > 0 ==> |vals| > 0)
            && InsertSqlUseParameters(tableName, dict)
               == "INSERT INTO " + tableName + " (" + (if |cols| > 0 then cols[..|cols| - 1] else cols)
                  + ") VALUES (" + (if |cols| > 0 then vals[..|vals| - 1] else vals) + ");"
  {
    var ws := WithoutAutoKeys(dict);
    TrimmedTrailing(Names(ws), ",");
    TrimmedTrailing(Placeholders(ws), ",");
  }

  method GetInsertSqlUseParameters(tableName: string, dict: seq<Entry>) returns (sql: string)
    ensures sql == InsertSqlUseParameters(tableName, dict)
  {
    var cols := "";
    var vals := "";
    var i := 0;
    while i < |dict|
      invariant 0 <= i <= |dict|
      invariant cols == Suffixed(Names(WithoutAutoKeys(dict[..i])), ",")
      invariant vals == Suffixed(Placeholders(WithoutAutoKeys(dict[..i])), ",")
    {
      var e := dict[i];
      InsertParamsStep(dict, i);
      if !IsAutoKey(e.col) {
        cols := cols + e.col.name + ",";
        vals := vals + ("@" + e.col.name) + ",";
      }
      i := i + 1;
    }
    assert dict[..i] == dict;
    InsertParamsFromBuilders(tableName, dict);
    if |cols| > 0 {
      cols := cols[..|cols| - 1];
      vals := vals[..|vals| - 1];
    }
    sql := "INSERT INTO " + tableName + " (" + cols + ") VALUES (" + vals + ");";
  }

  function ParamPairs(es: seq<Entry>): seq<string>
  {
    seq(|es|, i requires 0 <= i < |es| => es[i].col.name + " = @" + es[i].col.name)
  }

  /** `GetUpdateSQL_UseParameters`: ` WHERE ` is written even when no column is a key. */
  function UpdateSqlUseParameters(tableName: string, dict: seq<Entry>): string
  {
    "UPDATE " + tableName + " SET " + Join(", ", ParamPairs(NonKeyEntries(dict)))
    + " WHERE " + Join(" AND ", ParamPairs(KeyEntries(dict))) + ";"
  }

  /** One entry of the parameterised update loop: a key column extends the WHERE builder, any
      other column the SET builder, and the other builder is unchanged. */
  lemma UpdateParamsStep(dict: seq<Entry>, i: nat)
    requires i < |dict|
    ensures var e := dict[i];
            var pair := e.col.name + " = @" + e.col.name;
            var setBefore := Prefixed(ParamPairs(NonKeyEntries(dict[..i])), ", ");
            var whereBefore := Prefixed(ParamPairs(KeyEntries(dict[..i])), " AND ");
            var setAfter := Prefixed(ParamPairs(NonKeyEntries(dict[..i + 1])), ", ");
            var whereAfter := Prefixed(ParamPairs(KeyEntries(dict[..i + 1])), " AND ");
            (e.col.primaryKey ==> setAfter == setBefore && whereAfter == whereBefore + " AND " + pair)
            && (!e.col.primaryKey ==> whereAfter == whereBefore && setAfter == setBefore + ", " + pair)
  {
    var e := dict[i];
    var pair := e.col.name + " = @" + e.col.name;
    KeySplitStep(dict, i);
    if e.col.primaryKey {
      assert NonKeyEntries(dict[..i + 1]) == NonKeyEntries(dict[..i]) + [];
      assert NonKeyEntries(dict[..i + 1]) == NonKeyEntries(dict[..i]);
      assert ParamPairs(KeyEntries(dict[..i + 1])) == ParamPairs(KeyEntries(dict[..i])) + [pair];
      PrefixedAppend(ParamPairs(KeyEntries(dict[..i])), pair, " AND ");
    } else {
      assert KeyEntries(dict[..i + 1]) == KeyEntries(dict[..i]) + [];
      assert KeyEntries(dict[..i + 1]) == KeyEntries(dict[..i]);
      assert ParamPairs(NonKeyEntries(dict[..i + 1])) == ParamPairs(NonKeyEntries(dict[..i])) + [pair];
      PrefixedAppend(ParamPairs(NonKeyEntries(dict[..i])), pair, ", ");
    }
  }

  /** Dropping each finished builder's leading separator (when it holds anything) gives the
      parameterised update text. */
  lemma UpdateParamsFromBuilders(tableName: string, dict: seq<Entry>)
    ensures var setText := Prefixed(ParamPairs(NonKeyEntries(dict)), ", ");
            var where := Prefixed(ParamPairs(KeyEntries(dict)), " AND ");
            (|setText| > 0 ==> |setText| >= 2) && (|where| > 0 ==> |where| >= 5)
            && UpdateSqlUseParameters(tableName, dict)
               == "UPDATE " + tableName + " SET " + (if |setText| > 0 then setText[2..] else setText)
                  + " WHERE " + (if |where| > 0 then where[5..] else where) + ";"
  {
    TrimmedLeading(ParamPairs(NonKeyEntries(dict)), ", ");
    TrimmedLeading(ParamPairs(KeyEntries(dict)), " AND ");
  }

  method GetUpdateSqlUseParameters(tableName: string, dict: seq<Entry>) returns (sql: string)
    ensures sql == UpdateSqlUseParameters(tableName, dict)
  {
    var setText := "";
    var where := "";
    var i := 0;
    while i < |dict|
      invariant 0 <= i <= |dict|
      invariant setText == Prefixed(ParamPairs(NonKeyEntries(dict[..i])), ", ")
      invariant where == Prefixed(ParamPairs(KeyEntries(dict[..i])), " AND ")
    {
      var e := dict[i];
      UpdateParamsStep(dict, i);
      var pair := e.col.name + " = @" + e.col.name;
      if e.col.primaryKey {
        where := where + " AND " + pair;
      } else {
        setText := setText + ", " + pair;
      }
      i := i + 1;
    }
    assert dict[..i] == dict;
    UpdateParamsFromBuilders(tableName, dict);
    if |setText| > 0 {
      setText := setText[2..];
    }
    if |where| > 0 {
      where := where[5..];
    }
    sql := "UPDATE " + tableName + " SET " + setText + " WHERE " + where + ";";
  }

  /** The update text never puts a key column in SET, and puts every key column in WHERE. */
  lemma ParamUpdateSplitsKeys(dict: seq<Entry>)
    ensures forall e :: e in NonKeyEntries(dict) ==> e in dict && !e.col.primaryKey
    ensures forall e :: e in dict && e.col.primaryKey ==> e in KeyEntries(dict)
    ensures |ParamPairs(NonKeyEntries(dict))| + |ParamPairs(KeyEntries(dict))| == |dict|
  {
    KeySplitExactly(dict);
  }

  function DbParams(dict: seq<Entry>, m: Instance): seq<DbParam>
  {
    seq(|dict|, i requires 0 <= i < |dict| => DbParam("@" + dict[i].col.name, dict[i].col.dataType, Get(m, dict[i].prop.name)))
  }

  /** `GetDbParametesr`: one parameter per dictionary entry, in dictionary order. */
  method GetDbParameters(m: Instance, dict: seq<Entry>) returns (ps: seq<DbParam>)
    ensures ps == DbParams(dict, m)
  {
    ps := [];
    var i := 0;
    while i < |dict|
      invariant 0 <= i <= |dict|
      invariant ps == DbParams(dict[..i], m)
    {
      var kv := dict[i];
      var t := DbParam("@" + kv.col.name, kv.col.dataType, Get(m, kv.prop.name));
      ps := ps + [t];
      i := i + 1;
    }
    assert dict[..i] == dict;
  }

  /** Every placeholder of the parameterised insert has a parameter of that name carrying the
      property's value; auto-increment keys get a parameter too although the text omits them. */
  lemma ParametersCoverPlaceholders(dict: seq<Entry>, m: Instance)
    ensures var ws := WithoutAutoKeys(dict);
            forall k :: 0 <= k < |ws| ==>
              exists j :: 0 <= j < |dict| && DbParams(dict, m)[j].name == Placeholders(ws)[k]
                          && DbParams(dict, m)[j].value == Get(m, ws[k].prop.name)
    ensures forall j :: 0 <= j < |dict| && IsAutoKey(dict[j].col) ==>
              dict[j] !in WithoutAutoKeys(dict) && DbParams(dict, m)[j].name == "@" + dict[j].col.name
  {
    var ws := WithoutAutoKeys(dict);
    WithoutAutoKeysExactly(dict);
    forall k | 0 <= k < |ws|
      ensures exists j :: 0 <= j < |dict| && DbParams(dict, m)[j].name == Placeholders(ws)[k]
                          && DbParams(dict, m)[j].value == Get(m, ws[k].prop.name)
    {
      assert ws[k] in ws;
      var j :| 0 <= j < |dict| && dict[j] == ws[k];
      assert DbParams(dict, m)[j].name == Placeholders(ws)[k];
    }
  }

  // ---------------------------------------------------------------- row mapping

  /** Reading one entry's cell and converting it to the property's type can go wrong in two ways:
      the row has no such column (ArgumentException) or the conversion throws. */
  function AssignEntry(columns: seq<string>, row: seq<Value>, e: Entry, convert: Converter, obj: Instance): Result<Instance>
    requires |row| == |columns|
  {
    match IndexOf(columns, e.col.name)
    case None => Err(ColumnNotInRow(e.col.name))
    case Some(k) =>
      match convert(row[k], e.prop.propType)
      case None => Err(ConversionFailed(e.col.name))
      case Some(v) => Ok(obj[e.prop.name := v])
  }

  /** The entries assigned in dictionary order, starting from the freshly constructed instance;
      the first failure is the result. */
  function RowToModel(columns: seq<string>, row: seq<Value>, dict: seq<Entry>, convert: Converter, blank: Instance): Result<Instance>
    requires |row| == |columns|
    decreases |dict|
  {
    if |dict| == 0 then Ok(blank)
    else match RowToModel(columns, row, dict[..|dict| - 1], convert, blank)
      case Err(err) => Err(err)
      case Ok(obj) => AssignEntry(columns, row, dict[|dict| - 1], convert, obj)
  }

  predicate Assignable(columns: seq<string>, row: seq<Value>, e: Entry, convert: Converter)
    requires |row| == |columns|
  {
    e.col.name in columns && convert(row[IndexOf(columns, e.col.name).value], e.prop.propType).Some?
  }

  /** Mapping a row fails exactly when some entry's column is missing or its cell does not convert. */
  lemma {:induction false} RowToModelFailsIff(columns: seq<string>, row: seq<Value>, dict: seq<Entry>, convert: Converter, blank: Instance)
    requires |row| == |columns|
    ensures RowToModel(columns, row, dict, convert, blank).Err?
            <==> exists i :: 0 <= i < |dict| && !Assignable(columns, row, dict[i], convert)
    decreases |dict|
  {
    if |dict| > 0 {
      var init := dict[..|dict| - 1];
      RowToModelFailsIff(columns, row, init, convert, blank);
      if exists i :: 0 <= i < |init| && !Assignable(columns, row, init[i], convert) {
        var i :| 0 <= i < |init| && !Assignable(columns, row, init[i], convert);
        assert dict[i] == init[i];
      }
      if exists i :: 0 <= i < |dict| && !Assignable(columns, row, dict[i], convert) {
        var i :| 0 <= i < |dict| && !Assignable(columns, row, dict[i], convert);
        if i < |init| {
          assert init[i] == dict[i];
        }
      }
    }
  }

  /** On success every mapped property holds its converted cell (properties are distinct within a
      type). */
  lemma {:induction false} RowToModelAssigns(columns: seq<string>, row: seq<Value>, dict: seq<Entry>, convert: Converter, blank: Instance)
    requires |row| == |columns|
    requires forall i, j :: 0 <= i < j < |dict| ==> dict[i].prop.name != dict[j].prop.name
    requires RowToModel(columns, row, dict, convert, blank).Ok?
    ensures var obj := RowToModel(columns, row, dict, convert, blank).value;
            forall i :: 0 <= i < |dict| ==>
              dict[i].col.name in columns
              && Some(Get(obj, dict[i].prop.name)) == convert(row[IndexOf(columns, dict[i].col.name).value], dict[i].prop.propType)
    decreases |dict|
  {
    if |dict| > 0 {
      var n := |dict| - 1;
      var init := dict[..n];
      RowToModelAssigns(columns, row, init, convert, blank);
      var obj := RowToModel(columns, row, dict, convert, blank).value;
      var prev := RowToModel(columns, row, init, convert, blank).value;
      AssignEntryEffect(columns, row, dict[n], convert, prev);
      forall i | 0 <= i < |dict|
        ensures dict[i].col.name in columns
                && Some(Get(obj, dict[i].prop.name)) == convert(row[IndexOf(columns, dict[i].col.name).value], dict[i].prop.propType)
      {
        if i < n {
          assert init[i] == dict[i];
          assert dict[i].prop.name != dict[n].prop.name;
        }
      }
    }
  }

  lemma AssignEntryEffect(columns: seq<string>, row: seq<Value>, e: Entry, convert: Converter, obj: Instance)
    requires |row| == |columns|
    requires AssignEntry(columns, row, e, convert, obj).Ok?
    ensures var r := AssignEntry(columns, row, e, convert, obj).value;
            e.col.name in columns
            && Some(Get(r, e.prop.name)) == convert(row[IndexOf(columns, e.col.name).value], e.prop.propType)
            && forall p :: p != e.prop.name ==> Get(r, p) == Get(obj, p)
  {
  }

  /** On success every property no entry maps keeps the value the constructor gave it. */
  lemma {:induction false} RowToModelKeeps(columns: seq<string>, row: seq<Value>, dict: seq<Entry>, convert: Converter, blank: Instance, p: string)
    requires |row| == |columns|
    requires RowToModel(columns, row, dict, convert, blank).Ok?
    requires forall i :: 0 <= i < |dict| ==> dict[i].prop.name != p
    ensures Get(RowToModel(columns, row, dict, convert, blank).value, p) == Get(blank, p)
    decreases |dict|
  {
    if |dict| > 0 {
      var init := dict[..|dict| - 1];
      assert forall i :: 0 <= i < |init| ==> init[i] == dict[i];
      RowToModelKeeps(columns, row, init, convert, blank, p);
    }
  }

  /** `TransToModel<T>(row, dict)` on a row of a table with the given columns. */
  method TransToModel(columns: seq<string>, row: seq<Value>, dict: seq<Entry>, convert: Converter, blank: Instance)
    returns (r: Result<Instance>)
    requires |row| == |columns|
    ensures r == RowToModel(columns, row, dict, convert, blank)
  {
    var obj := blank;
    var i := 0;
    while i < |dict|
      invariant 0 <= i <= |dict|
      invariant RowToModel(columns, row, dict[..i], convert, blank) == Ok(obj)
    {
      var kv := dict[i];
      assert dict[..i + 1][..i] == dict[..i];
      var k := IndexOf(columns, kv.col.name);
      if k.None? {
        RowToModelErrStays(columns, row, dict, i + 1, convert, blank);
        return Err(ColumnNotInRow(kv.col.name));
      }
      var v := convert(row[k.value], kv.prop.propType);
      if v.None? {
        RowToModelErrStays(columns, row, dict, i + 1, convert, blank);
        return Err(ConversionFailed(kv.col.name));
      }
      obj := obj[kv.prop.name := v.value];
      i := i + 1;
    }
    assert dict[..i] == dict;
    r := Ok(obj);
  }

  /** Once an assignment fails, later entries do not change the error. */
  lemma {:induction false} RowToModelErrStays(columns: seq<string>, row: seq<Value>, dict: seq<Entry>, n: nat, convert: Converter, blank: Instance)
    requires |row| == |columns| && n <= |dict|
    requires RowToModel(columns, row, dict[..n], convert, blank).Err?
    ensures RowToModel(columns, row, dict, convert, blank) == RowToModel(columns, row, dict[..n], convert, blank)
    decreases |dict| - n
  {
    if n < |dict| {
      assert dict[..n + 1][..n] == dict[..n];
      RowToModelErrStays(columns, row, dict, n + 1, convert, blank);
    } else {
      assert dict[..n] == dict;
    }
  }

  /** One model per row, in row order; the first failing row's error otherwise. */
  function TableToModels(table: DataTable, dict: seq<Entry>, convert: Converter, blank: Instance): Result<seq<Instance>>
    requires WellFormed(table)
    decreases |table.rows|
  {
    if |table.rows| == 0 then Ok([])
    else
      var init := DataTable(table.columns, table.rows[..|table.rows| - 1]);
      match TableToModels(init, dict, convert, blank)
      case Err(err) => Err(err)
      case Ok(models) =>
        match RowToModel(table.columns, table.rows[|table.rows| - 1], dict, convert, blank)
        case Err(err) => Err(err)
        case Ok(obj) => Ok(models + [obj])
  }

  /** A successful list has exactly one model per row, each the mapping of the row at the same position. */
  lemma {:induction false} TableToModelsRowByRow(table: DataTable, dict: seq<Entry>, convert: Converter, blank: Instance)
    requires WellFormed(table)
    requires TableToModels(table, dict, convert, blank).Ok?
    ensures var models := TableToModels(table, dict, convert, blank).value;
            |models| == |table.rows|
            && forall i :: 0 <= i < |models| ==> RowToModel(table.columns, table.rows[i], dict, convert, blank) == Ok(models[i])
    decreases |table.rows|
  {
    if |table.rows| > 0 {
      var init := DataTable(table.columns, table.rows[..|table.rows| - 1]);
      TableToModelsRowByRow(init, dict, convert, blank);
    }
  }

  /** `TransToModelList<T>(table, dict)`. */
  method TransToModelList(table: DataTable, dict: seq<Entry>, convert: Converter, blank: Instance)
    returns (r: Result<seq<Instance>>)
    requires WellFormed(table)
    ensures r == TableToModels(table, dict, convert, blank)
  {
    var list: seq<Instance> := [];
    var i := 0;
    while i < |table.rows|
      invariant 0 <= i <= |table.rows|
      invariant TableToModels(DataTable(table.columns, table.rows[..i]), dict, convert, blank) == Ok(list)
    {
      var row := table.rows[i];
      var obj := TransToModel(table.columns, row, dict, convert, blank);
      TableToModelsStep(table, i, dict, convert, blank, list);
      if obj.Err? {
        TableToModelsErrStays(table, i + 1, dict, convert, blank);
        return Err(obj.error);
      }
      list := list + [obj.value];
      i := i + 1;
    }
    assert table.rows[..i] == table.rows;
    r := Ok(list);
  }

  /** Mapping one more row extends the list by that row's model, or ends with its error. */
  lemma TableToModelsStep(table: DataTable, i: nat, dict: seq<Entry>, convert: Converter, blank: Instance, list: seq<Instance>)
    requires WellFormed(table) && i < |table.rows|
    requires TableToModels(DataTable(table.columns, table.rows[..i]), dict, convert, blank) == Ok(list)
    ensures WellFormed(DataTable(table.columns, table.rows[..i + 1]))
    ensures TableToModels(DataTable(table.columns, table.rows[..i + 1]), dict, convert, blank)
            == match RowToModel(table.columns, table.rows[i], dict, convert, blank)
               case Err(err) => Err(err)
               case Ok(obj) => Ok(list + [obj])
  {
    PrefixWellFormed(table, i + 1);
    assert table.rows[..i + 1][..i] == table.rows[..i];
  }

  lemma {:induction false} TableToModelsErrStays(table: DataTable, n: nat, dict: seq<Entry>, convert: Converter, blank: Instance)
    requires WellFormed(table) && n <= |table.rows|
    requires TableToModels(DataTable(table.columns, table.rows[..n]), dict, convert, blank).Err?
    ensures TableToModels(table, dict, convert, blank) == TableToModels(DataTable(table.columns, table.rows[..n]), dict, convert, blank)
    decreases |table.rows| - n
  {
    if n < |table.rows| {
      assert table.rows[..n + 1][..n] == table.rows[..n];
      TableToModelsErrStays(table, n + 1, dict, convert, blank);
    } else {
      assert table.rows[..n] == table.rows;
    }
  }

  /** `TransToModelList<T>(table)`: the dictionary is extracted from the type first. */
  method TransToModelListOf(t: ModelType, table: DataTable, convert: Converter, blank: Instance)
    returns (r: Result<seq<Instance>>)
    requires WellFormed(table)
    ensures (forall p :: p in t.props ==> !IsMapped(p)) ==> r == Err(MissingColumnAttribute(t.fullName))
    ensures (exists p :: p in t.props && IsMapped(p)) ==> r == TableToModels(table, ColumnEntries(t.props), convert, blank)
  {
    var dict := GetColumnDictionary(t);
    if dict.Err? {
      return Err(dict.error);
    }
    r := TransToModelList(table, dict.value, convert, blank);
  }

  // ---------------------------------------------------------------- JSON-like dump

  /** How `TransToJsonString` writes a value: `null`, a quoted string, bare numeric text, or
      anything else quoted (so `True` is quoted). */
  function JsonValue(v: Value): string
  {
    if v == Null then "null"
    else if v.Str? then "\"" + v.s + "\""
    else if IsNumeric(ToText(v)) then ToText(v)
    else "\"" + ToText(v) + "\""
  }

  /** Only null is written as `null`, and a value is left unquoted exactly when it is null or a
      non-string whose text is numeric. */
  lemma JsonValueQuoting(v: Value)
    ensures JsonValue(v) == "null" <==> v == Null
    ensures |JsonValue(v)| > 0
    ensures JsonValue(v)[0] == '"' <==> v != Null && (v.Str? || !IsNumeric(ToText(v)))
  {
    if v == Null {
    } else if v.Str? {
      assert JsonValue(v)[0] == '"';
    } else if IsNumeric(ToText(v)) {
      NumericTextStart(ToText(v));
      assert JsonValue(v)[0] != "null"[0];
    } else {
      assert JsonValue(v)[0] == '"';
    }
  }

  function JsonPairs(dict: seq<Entry>, m: Instance): seq<string>
  {
    seq(|dict|, i requires 0 <= i < |dict| => "\"" + dict[i].col.name + "\"=" + JsonValue(Get(m, dict[i].prop.name)))
  }

  /** `TransToJsonString(model, dict)`: `"NAME"=value` pairs in dictionary order inside braces. */
  function Json(m: Instance, dict: seq<Entry>): string
  {
    "{" + Join(",", JsonPairs(dict, m)) + "}"
  }

  /** The builder of `TransToJsonString` once the entries `es` have been visited. */
  function JsonBuilder(es: seq<Entry>, m: Instance): string
  {
    "{" + Suffixed(JsonPairs(es, m), ",")
  }

  lemma JsonBuilderStep(dict: seq<Entry>, i: nat, m: Instance, pair: string)
    requires i < |dict| && pair == "\"" + dict[i].col.name + "\"=" + JsonValue(Get(m, dict[i].prop.name))
    ensures JsonBuilder(dict[..i + 1], m) == JsonBuilder(dict[..i], m) + pair + ","
  {
    var body := Suffixed(JsonPairs(dict[..i], m), ",");
    assert JsonPairs(dict[..i + 1], m) == JsonPairs(dict[..i], m) + [pair];
    SuffixedAppend(JsonPairs(dict[..i], m), pair, ",");
    AppendAssoc("{", body, pair);
    AppendAssoc("{", body + pair, ",");
  }

  /** Dropping the finished builder's trailing comma (when it holds a pair) and closing the brace
      gives the dump. */
  lemma JsonFromBuilder(dict: seq<Entry>, m: Instance)
    ensures var b := JsonBuilder(dict, m);
            (if |b| > 1 then b[..|b| - 1] else b) + "}" == Json(m, dict)
  {
    if |dict| > 0 {
      SuffixedIsJoin(JsonPairs(dict, m), ",");
      var j := Join(",", JsonPairs(dict, m));
      assert JsonBuilder(dict, m) == "{" + j + ",";
    }
  }

  method TransToJsonString(m: Instance, dict: seq<Entry>) returns (json: string)
    ensures json == Json(m, dict)
  {
    json := "{";
    var i := 0;
    while i < |dict|
      invariant 0 <= i <= |dict|
      invariant json == JsonBuilder(dict[..i], m)
    {
      var kv := dict[i];
      var value := Get(m, kv.prop.name);
      var valueText;
      if value == Null {
        valueText := "null";
      } else if value.Str? {
        valueText := "\"" + value.s + "\"";
      } else if IsNumeric(ToText(value)) {
        valueText := ToText(value);
      } else {
        valueText := "\"" + ToText(value) + "\"";
      }
      assert valueText == JsonValue(value);
      var pair := "\"" + kv.col.name + "\"=" + valueText;
      JsonBuilderStep(dict, i, m, pair);
      json := json + pair + ",";
      i := i + 1;
    }
    assert dict[..i] == dict;
    JsonFromBuilder(dict, m);
    if |json| > 1 {
      json := json[..|json| - 1];
    }
    json := json + "}";
  }

  /** Dumping one more entry replaces the closing brace by that entry's pair (after a comma when
      the dump already holds a pair) and closes again; the empty dump is `{}`. */
  lemma JsonAppend(m: Instance, dict: seq<Entry>, e: Entry)
    ensures Json(m, []) == "{}"
    ensures var pair := "\"" + e.col.name + "\"=" + JsonValue(Get(m, e.prop.name));
            var before := Json(m, dict);
            |before| >= 2 && before[|before| - 1] == '}'
            && Json(m, dict + [e]) == before[..|before| - 1] + (if |dict| == 0 then "" else ",") + pair + "}"
  {
    var pair := "\"" + e.col.name + "\"=" + JsonValue(Get(m, e.prop.name));
    var ps := JsonPairs(dict, m);
    var body := Join(",", ps);
    JsonPairsAppend(m, dict, e);
    assert Json(m, dict) == "{" + body + "}";
    if |dict| > 0 {
      JoinAppend(",", ps, pair);
      AppendAssoc4("{", body, ",", pair);
      assert Json(m, dict + [e]) == "{" + body + "," + pair + "}";
      ReopenAppend("{" + body, "}", ",", pair);
    } else {
      assert Join(",", [pair]) == pair;
      assert Json(m, dict + [e]) == "{" + body + "" + pair + "}";
      ReopenAppend("{" + body, "}", "", pair);
    }
  }

  lemma JsonPairsAppend(m: Instance, dict: seq<Entry>, e: Entry)
    ensures JsonPairs(dict + [e], m) == JsonPairs(dict, m) + ["\"" + e.col.name + "\"=" + JsonValue(Get(m, e.prop.name))]
  {
  }




}
