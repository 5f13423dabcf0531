/** DBLib/Model.cs: the sample model `Model.ForTest()` and the texts the library produces for it. */
module DbLibExample {
  import opened Common
  import opened Strings
  import opened Values
  import opened DbLibAttributes
  import opened AttributeFunc

  const IdColumn := ColumnAttribute("ID", Int32, true, true)
  const NameColumn := ColumnAttribute("NAME", String, false, false)
  const BirthdayColumn := ColumnAttribute("BIRTHDAY", Date, false, false)
  const AgeColumn := ColumnAttribute("AGE", Int32, false, false)
  const CitizenColumn := ColumnAttribute("CITIZEN", Boolean, false, false)
  const DescribeColumn := ColumnAttribute("DESCRIBE", String, false, false)

  /** `[Table("Model")] class Model` with its six annotated properties in declaration order. */
  const ModelClass := ModelType("DBLib.Model", [NewTableAttribute("Model")], [
    Property("id", "Int32", [IdColumn]),
    Property("name", "String", [NameColumn]),
    Property("birthday", "DateTime", [BirthdayColumn]),
    Property("age", "Int32", [AgeColumn]),
    Property("citizen", "Boolean", [CitizenColumn]),
    Property("describe", "String", [DescribeColumn])
  ])

  /** `Model.ForTest()`; the DateTime renders with the invariant-style format the expected text shows. */
  const ForTest: Instance := map[
    "id" := Other("1"),
    "name" := Str("example"),
    "birthday" := Other("1989-02-18 00:00:00"),
    "age" := Other("28"),
    "citizen" := Bool(true),
    "describe" := Null
  ]

  /** Every annotation of the sample passes the constructor's name check. */
  lemma SampleColumnsConstruct()
    ensures NewColumnAttribute(Some("ID"), Int32, true, true) == Ok(IdColumn)
    ensures NewColumnAttribute(Some("CITIZEN"), Boolean) == Ok(CitizenColumn)
  {
    assert !IsWhiteSpace("ID"[0]);
    assert !IsWhiteSpace("CITIZEN"[0]);
  }

  /** The number parser accepts the sample's integers. */
  lemma SampleNumbers()
    ensures IsNumeric("28") && IsNumeric("1")
  {
  }

  /** The number parser rejects the sample's other texts, each for a character no number has. */
  lemma SampleTextsAreNotNumeric()
    ensures !IsNumeric("example") && !IsNumeric("1989-02-18 00:00:00") && !IsNumeric("True")
  {
    NotNumericAt("example", 1);
    NotNumericAt("1989-02-18 00:00:00", 13);
    NotNumericAt("True", 0);
  }

  /** The sample's properties, each paired with its one attribute. */
  const SampleDict: seq<Entry> := [
    Entry(ModelClass.props[0], IdColumn), Entry(ModelClass.props[1], NameColumn),
    Entry(ModelClass.props[2], BirthdayColumn), Entry(ModelClass.props[3], AgeColumn),
    Entry(ModelClass.props[4], CitizenColumn), Entry(ModelClass.props[5], DescribeColumn)
  ]

  /** Literal insert keeps `NAME`, `BIRTHDAY`, `AGE` and `CITIZEN`. */
  lemma SampleInsertEntries()
    ensures InsertEntries(SampleDict, ForTest) == SampleDict[1..5]
  {
    var d := SampleDict;
    SampleSkips();
    SampleInsertEntriesFirstFive();
    InsertEntriesStep(d, 5, ForTest);
    assert d[..6] == d;
  }

  lemma SampleInsertEntriesFirstFive()
    ensures InsertEntries(SampleDict[..5], ForTest) == SampleDict[1..5]
  {
    var d := SampleDict;
    SampleSkips();
    SampleInsertEntriesFirstThree();
    InsertEntriesStep(d, 3, ForTest);
    InsertEntriesStep(d, 4, ForTest);
  }

  lemma SampleInsertEntriesFirstThree()
    ensures InsertEntries(SampleDict[..3], ForTest) == [SampleDict[1], SampleDict[2]]
  {
    var d := SampleDict;
    SampleSkips();
    InsertEntriesStep(d, 0, ForTest);
    assert d[..0] == [];
    assert InsertEntries(d[..1], ForTest) == [];
    InsertEntriesStep(d, 1, ForTest);
    InsertEntriesStep(d, 2, ForTest);
  }

  /** `ID` is skipped as an auto-increment key and `DESCRIBE` as null; the rest are kept. */
  lemma SampleSkips()
    ensures SkippedByInsert(SampleDict[0], ForTest) && SkippedByInsert(SampleDict[5], ForTest)
    ensures forall k :: 1 <= k < 5 ==> !SkippedByInsert(SampleDict[k], ForTest)
  {
    assert Get(ForTest, "describe") == Null;
    SampleValues();
  }

  /** The kept values of the sample all render. */
  lemma SampleRenders()
    ensures !RenderFails(SampleDict[1..5], ForTest)
  {
    var es := SampleDict[1..5];
    SampleValues();
    RenderFailsIffSome(es, ForTest);
    forall e | e in es
      ensures !BadBoolean(e.col, Get(ForTest, e.prop.name))
    {
    }
  }

  /** Text is quoted. */
  lemma SampleQuotedLiterals()
    ensures Literal(NameColumn, Str("example")) == "'example'"
    ensures Literal(BirthdayColumn, Other("1989-02-18 00:00:00")) == "'1989-02-18 00:00:00'"
  {
    NameLiteral();
    BirthdayLiteral();
  }

  lemma NameLiteral()
    ensures Literal(NameColumn, Str("example")) == "'example'"
  {
    NotNumericAt("example", 1);
  }

  lemma BirthdayLiteral()
    ensures Literal(BirthdayColumn, Other("1989-02-18 00:00:00")) == "'1989-02-18 00:00:00'"
  {
    NotNumericAt("1989-02-18 00:00:00", 13);
    BirthdayQuoted();
  }

  lemma BirthdayQuoted()
    ensures "'" + "1989-02-18 00:00:00" + "'" == "'1989-02-18 00:00:00'"
  {
  }

  /** `28` stays bare and `true` in a Boolean column is `1`. */
  lemma SampleBareLiterals()
    ensures Literal(AgeColumn, Other("28")) == "28"
    ensures Literal(CitizenColumn, Bool(true)) == "1"
  {
    SampleNumbers();
  }

  lemma LiteralsOfFour(es: seq<Entry>, m: Instance)
    requires |es| == 4 && !RenderFails(es, m)
    ensures forall k :: 0 <= k < 4 ==> !BadBoolean(es[k].col, Get(m, es[k].prop.name))
    ensures Literals(es, m) == [Literal(es[0].col, Get(m, es[0].prop.name)), Literal(es[1].col, Get(m, es[1].prop.name)),
                                Literal(es[2].col, Get(m, es[2].prop.name)), Literal(es[3].col, Get(m, es[3].prop.name))]
  {
    LiteralAt(es, m, 0);
    LiteralAt(es, m, 1);
    LiteralAt(es, m, 2);
    LiteralAt(es, m, 3);
  }

  lemma SampleValues()
    ensures Get(ForTest, "name") == Str("example")
    ensures Get(ForTest, "birthday") == Other("1989-02-18 00:00:00")
    ensures Get(ForTest, "age") == Other("28")
    ensures Get(ForTest, "citizen") == Bool(true)
  {
  }

  lemma SampleLiteralList()
    ensures !RenderFails(SampleDict[1..5], ForTest)
    ensures Literals(SampleDict[1..5], ForTest) == ["'example'", "'1989-02-18 00:00:00'", "28", "1"]
  {
    SampleRenders();
    LiteralsOfFour(SampleDict[1..5], ForTest);
    SampleValues();
    SampleQuotedLiterals();
    SampleBareLiterals();
  }

  lemma SampleColumnsText()
    ensures Join(",", Names(SampleDict[1..5])) == "NAME,BIRTHDAY,AGE,CITIZEN"
  {
    SampleNames();
    JoinFour(",", "NAME", "BIRTHDAY", "AGE", "CITIZEN");
    ColumnsText();
  }

  lemma SampleNames()
    ensures Names(SampleDict[1..5]) == ["NAME", "BIRTHDAY", "AGE", "CITIZEN"]
  {
  }

  lemma ColumnsText()
    ensures "NAME" + "," + "BIRTHDAY" + "," + "AGE" + "," + "CITIZEN" == "NAME,BIRTHDAY,AGE,CITIZEN"
  {
  }

  lemma ValuesTextFirstHalf()
    ensures "'example'" + "," + "'1989-02-18 00:00:00'" == "'example','1989-02-18 00:00:00'"
  {
  }

  lemma ValuesTextSecondHalf()
    ensures "'example','1989-02-18 00:00:00'" + "," + "28" + "," + "1" == "'example','1989-02-18 00:00:00',28,1"
  {
  }

  lemma SampleValuesText()
    ensures !RenderFails(SampleDict[1..5], ForTest)
    ensures Join(",", Literals(SampleDict[1..5], ForTest)) == "'example','1989-02-18 00:00:00',28,1"
  {
    SampleLiteralList();
    JoinFour(",", "'example'", "'1989-02-18 00:00:00'", "28", "1");
    ValuesTextFirstHalf();
    ValuesTextSecondHalf();
  }

  /** The literal insert skips the auto-increment `ID` and the null `DESCRIBE`, quotes the text
      values, leaves `28` bare and writes the boolean as `1`. */
  lemma SampleInsertText()
    ensures InsertSql(ForTest, ModelClass.tableAttrs[0], ColumnEntries(ModelClass.props))
            == Ok("insert into " + "Model" + " (" + "NAME,BIRTHDAY,AGE,CITIZEN" + ") values ("
                  + "'example','1989-02-18 00:00:00',28,1" + ");")
  {
    SampleEntries();
    SampleInsertEntries();
    SampleColumnsText();
    SampleValuesText();
    assert ModelClass.tableAttrs[0].name == "Model";
  }

  lemma JoinFour(sep: string, a: string, b: string, c: string, d: string)
    ensures Join(sep, [a, b, c, d]) == a + sep + b + sep + c + sep + d
  {
    JoinAppend(sep, [a], b);
    JoinAppend(sep, [a, b], c);
    JoinAppend(sep, [a, b, c], d);
    assert [a] + [b] == [a, b] && [a, b] + [c] == [a, b, c] && [a, b, c] + [d] == [a, b, c, d];
  }

  /** Extraction keeps all six annotated properties of the sample, in declaration order. */
  lemma SampleEntries()
    ensures ColumnEntries(ModelClass.props) == SampleDict
  {
    var ps := ModelClass.props;
    var e0, e1, e2 := Entry(ps[0], IdColumn), Entry(ps[1], NameColumn), Entry(ps[2], BirthdayColumn);
    var e3, e4, e5 := Entry(ps[3], AgeColumn), Entry(ps[4], CitizenColumn), Entry(ps[5], DescribeColumn);
    assert ps[..0] == [];
    ColumnEntriesStep(ps, 0);
    assert ColumnEntries(ps[..1]) == [e0];
    ColumnEntriesStep(ps, 1);
    assert ColumnEntries(ps[..2]) == [e0, e1];
    ColumnEntriesStep(ps, 2);
    assert ColumnEntries(ps[..3]) == [e0, e1, e2];
    ColumnEntriesStep(ps, 3);
    assert ColumnEntries(ps[..4]) == [e0, e1, e2, e3];
    ColumnEntriesStep(ps, 4);
    assert ColumnEntries(ps[..5]) == [e0, e1, e2, e3, e4];
    ColumnEntriesStep(ps, 5);
    assert ps[..6] == ps;
  }

  /** The dump of any six entries, written out pair by pair. */
  lemma JsonOfSix(m: Instance, dict: seq<Entry>)
    requires |dict| == 6
    ensures var ps := JsonPairs(dict, m);
            Json(m, dict) == "{" + ps[0] + "," + ps[1] + "," + ps[2] + "," + ps[3] + "," + ps[4] + "," + ps[5] + "}"
  {
    var ps := JsonPairs(dict, m);
    assert ps == [ps[0], ps[1], ps[2], ps[3], ps[4], ps[5]];
    JoinSix(",", ps[0], ps[1], ps[2], ps[3], ps[4], ps[5]);
    BracedSix(ps[0], ps[1], ps[2], ps[3], ps[4], ps[5]);
  }

  lemma BracedSix(a: string, b: string, c: string, d: string, e: string, f: string)
    ensures "{" + (a + "," + b + "," + c + "," + d + "," + e + "," + f) + "}"
            == "{" + a + "," + b + "," + c + "," + d + "," + e + "," + f + "}"
  {
  }

  lemma JoinSix(sep: string, a: string, b: string, c: string, d: string, e: string, f: string)
    ensures Join(sep, [a, b, c, d, e, f]) == a + sep + b + sep + c + sep + d + sep + e + sep + f
  {
    JoinFour(sep, a, b, c, d);
    JoinAppend(sep, [a, b, c, d], e);
    JoinAppend(sep, [a, b, c, d, e], f);
    assert [a, b, c, d] + [e] == [a, b, c, d, e] && [a, b, c, d, e] + [f] == [a, b, c, d, e, f];
  }

  /** `ID` holds 1, which is numeric, so it is written bare. */
  lemma SampleJsonId()
    ensures JsonPairs(SampleDict, ForTest)[0] == "\"ID\"=1"
  {
    SampleNumbers();
    assert Get(ForTest, "id") == Other("1");
    assert "\"" + "ID" + "\"=" + "1" == "\"ID\"=1";
  }

  /** A string is quoted. */
  lemma SampleJsonName()
    ensures JsonPairs(SampleDict, ForTest)[1] == "\"NAME\"=\"example\""
  {
    SampleValues();
    assert "\"" + "NAME" + "\"=" + ("\"" + "example" + "\"") == "\"NAME\"=\"example\"";
  }

  lemma BirthdayJsonValue()
    ensures JsonValue(Other("1989-02-18 00:00:00")) == "\"1989-02-18 00:00:00\""
  {
    NotNumericAt("1989-02-18 00:00:00", 13);
    BirthdayJsonQuoted();
  }

  lemma BirthdayJsonQuoted()
    ensures "\"" + "1989-02-18 00:00:00" + "\"" == "\"1989-02-18 00:00:00\""
  {
  }

  /** A date is not numeric, so it is quoted. */
  lemma SampleJsonBirthday()
    ensures JsonPairs(SampleDict, ForTest)[2] == "\"BIRTHDAY\"=\"1989-02-18 00:00:00\""
  {
    SampleValues();
    BirthdayJsonValue();
    assert JsonPairs(SampleDict, ForTest)[2] == "\"" + "BIRTHDAY" + "\"=" + "\"1989-02-18 00:00:00\"";
    BirthdayPairText();
  }

  lemma BirthdayPairText()
    ensures "\"" + "BIRTHDAY" + "\"=" + "\"1989-02-18 00:00:00\"" == "\"BIRTHDAY\"=\"1989-02-18 00:00:00\""
  {
  }

  lemma SampleJsonAge()
    ensures JsonPairs(SampleDict, ForTest)[3] == "\"AGE\"=28"
  {
    SampleNumbers();
    SampleValues();
    assert "\"" + "AGE" + "\"=" + "28" == "\"AGE\"=28";
  }

  /** A boolean renders as `True`, which is not numeric, so it is quoted. */
  lemma SampleJsonCitizen()
    ensures JsonPairs(SampleDict, ForTest)[4] == "\"CITIZEN\"=\"True\""
  {
    NotNumericAt("True", 0);
    SampleValues();
    CitizenPairText();
  }

  lemma CitizenPairText()
    ensures "\"" + "CITIZEN" + "\"=" + ("\"" + "True" + "\"") == "\"CITIZEN\"=\"True\""
  {
  }

  lemma SampleJsonDescribe()
    ensures JsonPairs(SampleDict, ForTest)[5] == "\"DESCRIBE\"=null"
  {
    assert Get(ForTest, "describe") == Null;
    assert "\"" + "DESCRIBE" + "\"=" + "null" == "\"DESCRIBE\"=null";
  }

  /** The dump keeps every column, writes `null` for `DESCRIBE` and quotes `True`. */
  lemma SampleJsonText()
    ensures Json(ForTest, ColumnEntries(ModelClass.props))
            == "{" + "\"ID\"=1" + "," + "\"NAME\"=\"example\"" + "," + "\"BIRTHDAY\"=\"1989-02-18 00:00:00\"" + ","
               + "\"AGE\"=28" + "," + "\"CITIZEN\"=\"True\"" + "," + "\"DESCRIBE\"=null" + "}"
  {
    SampleEntries();
    JsonOfSix(ForTest, SampleDict);
    SampleJsonId();
    SampleJsonName();
    SampleJsonBirthday();
    SampleJsonAge();
    SampleJsonCitizen();
    SampleJsonDescribe();
  }
}
