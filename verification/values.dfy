/** Runtime values as the library sees them through reflection and ADO.NET. */
module Values {
  import opened Common

  /** A property value or a result cell. `Null` is a null reference (in a result cell: DBNull);
      `Other` is any non-string, non-boolean value, carried as the text its `ToString()` gives. */
  datatype Value = Null | Bool(b: bool) | Str(s: string) | Other(text: string)

  /** A model instance: property name to current value. A property without an entry reads as null. */
  type Instance = map<string, Value>

  function Get(m: Instance, property: string): Value
  {
    if property in m then m[property] else Null
  }

  /** `value.ToString()`; booleans render as `True`/`False`. */
  function ToText(v: Value): string
    requires v != Null
  {
    match v
    case Bool(b) => if b then "True" else "False"
    case Str(s) => s
    case Other(t) => t
  }

  /** The name of a property's declared type; what the converters dispatch on. */
  type PropType = string

  /** A type converter (`Convert.ChangeType` / `ConvertTool.ChangeType`): `None` when it throws. */
  type Converter = (Value, PropType) -> Option<Value>

  /** A `DataTable`: column names, and rows of cells in column order. */
  datatype DataTable = DataTable(columns: seq<string>, rows: seq<seq<Value>>)

  /** `DataRow[name]`: the position of the first column called `name`, if any. */
  function IndexOf(columns: seq<string>, name: string): (r: Option<nat>)
    ensures r.Some? ==> r.value < |columns| && columns[r.value] == name
                        && forall k :: 0 <= k < r.value ==> columns[k] != name
    ensures r.None? <==> name !in columns
    decreases |columns|
  {
    if |columns| == 0 then None
    else if columns[0] == name then Some(0)
    else match IndexOf(columns[1..], name)
      case None => None
      case Some(k) => Some(k + 1)
  }

  /** Every `DataRow` has exactly one cell per column of its table. */
  predicate WellFormed(t: DataTable)
  {
    forall i :: 0 <= i < |t.rows| ==> |t.rows[i]| == |t.columns|
  }

  /** The first `n` rows of a well-formed table form a well-formed table. */
  lemma PrefixWellFormed(t: DataTable, n: nat)
    requires WellFormed(t) && n <= |t.rows|
    ensures WellFormed(DataTable(t.columns, t.rows[..n]))
  {
  }

  // ---- `double.TryParse(text, out _)` with NumberStyles.Float | AllowThousands ----

  /** The white space the number parser skips at either end. */
  predicate IsNumberWhite(c: char)
  {
    c == ' ' || '\t' <= c <= '\r'
  }

  predicate IsDigit(c: char)
  {
    '0' <= c <= '9'
  }

  function TrimStartWhite(s: string): (r: string)
    ensures |r| <= |s|
    ensures |r| > 0 ==> !IsNumberWhite(r[0])
    decreases |s|
  {
    if |s| > 0 && IsNumberWhite(s[0]) then TrimStartWhite(s[1..]) else s
  }

  function TrimEndWhite(s: string): (r: string)
    ensures |r| <= |s|
    decreases |s|
  {
    if |s| > 0 && IsNumberWhite(s[|s| - 1]) then TrimEndWhite(s[..|s| - 1]) else s
  }

  /** Digits (with group separators once a digit was seen), an optional decimal point and
      fraction, then an optional exponent; at least one mantissa digit. */
  predicate Mantissa(u: string, i: nat, seenDigit: bool, seenPoint: bool)
    decreases |u| - i
  {
    if i >= |u| then seenDigit
    else if IsDigit(u[i]) then Mantissa(u, i + 1, true, seenPoint)
    else if u[i] == ',' && seenDigit && !seenPoint then Mantissa(u, i + 1, seenDigit, seenPoint)
    else if u[i] == '.' && !seenPoint then Mantissa(u, i + 1, seenDigit, true)
    else if (u[i] == 'e' || u[i] == 'E') && seenDigit then Exponent(u, i + 1)
    else false
  }

  predicate Exponent(u: string, i: nat)
    decreases |u| - i
  {
    var j := if i < |u| && (u[i] == '+' || u[i] == '-') then i + 1 else i;
    j < |u| && AllDigits(u, j)
  }

  predicate AllDigits(u: string, i: nat)
    decreases |u| - i
  {
    i >= |u| || (IsDigit(u[i]) && AllDigits(u, i + 1))
  }

  /** Whether the text parses as a double (invariant-culture separators). */
  predicate IsNumeric(s: string)
  {
    var t := TrimEndWhite(TrimStartWhite(s));
    var u := if |t| > 0 && (t[0] == '+' || t[0] == '-') then t[1..] else t;
    Mantissa(u, 0, false, false)
  }

  lemma {:induction false} TrimEndKeepsFirst(s: string)
    requires |s| > 0 && !IsNumberWhite(s[0])
    ensures |TrimEndWhite(s)| > 0 && TrimEndWhite(s)[0] == s[0]
    decreases |s|
  {
    if IsNumberWhite(s[|s| - 1]) {
      TrimEndKeepsFirst(s[..|s| - 1]);
    }
  }

  /** Numeric text starts with white space, a digit, a sign or a decimal point; in particular
      it never starts with a quote character or a letter, so quoting is recognisable. */
  lemma NumericTextStart(s: string)
    ensures IsNumeric(s) ==>
              |s| > 0 && (IsNumberWhite(s[0]) || IsDigit(s[0]) || s[0] == '+' || s[0] == '-' || s[0] == '.')
  {
    if |s| > 0 && !IsNumberWhite(s[0]) {
      TrimEndKeepsFirst(s);
    }
  }

  /** The characters a number may be written with, besides surrounding white space. */
  predicate IsNumberChar(c: char)
  {
    IsDigit(c) || c == ',' || c == '.' || c == 'e' || c == 'E' || c == '+' || c == '-'
  }

  lemma {:induction false} AllDigitsChars(u: string, i: nat)
    requires AllDigits(u, i)
    ensures forall j :: i <= j < |u| ==> IsDigit(u[j])
    decreases |u| - i
  {
    if i < |u| {
      AllDigitsChars(u, i + 1);
    }
  }

  lemma {:induction false} MantissaChars(u: string, i: nat, seenDigit: bool, seenPoint: bool)
    requires Mantissa(u, i, seenDigit, seenPoint)
    ensures forall j :: i <= j < |u| ==> IsNumberChar(u[j])
    decreases |u| - i
  {
    if i < |u| {
      if IsDigit(u[i]) {
        MantissaChars(u, i + 1, true, seenPoint);
      } else if u[i] == ',' && seenDigit && !seenPoint {
        MantissaChars(u, i + 1, seenDigit, seenPoint);
      } else if u[i] == '.' && !seenPoint {
        MantissaChars(u, i + 1, seenDigit, true);
      } else {
        var j := if i + 1 < |u| && (u[i + 1] == '+' || u[i + 1] == '-') then i + 2 else i + 1;
        AllDigitsChars(u, j);
      }
    }
  }

  lemma {:induction false} TrimStartChars(s: string)
    ensures forall j :: 0 <= j < |s| ==> IsNumberWhite(s[j]) || s[j] in TrimStartWhite(s)
    decreases |s|
  {
    if |s| > 0 && IsNumberWhite(s[0]) {
      TrimStartChars(s[1..]);
      forall j | 1 <= j < |s| ensures IsNumberWhite(s[j]) || s[j] in TrimStartWhite(s) {
        assert s[j] == s[1..][j - 1];
      }
    }
  }

  lemma {:induction false} TrimEndChars(s: string)
    ensures forall j :: 0 <= j < |s| ==> IsNumberWhite(s[j]) || s[j] in TrimEndWhite(s)
    decreases |s|
  {
    if |s| > 0 && IsNumberWhite(s[|s| - 1]) {
      TrimEndChars(s[..|s| - 1]);
      forall j | 0 <= j < |s| - 1 ensures IsNumberWhite(s[j]) || s[j] in TrimEndWhite(s) {
        assert s[j] == s[..|s| - 1][j];
      }
    }
  }

  /** Numeric text consists of white space and number characters only: any letter other than an
      exponent mark, a quote, a colon and so on makes text non-numeric. */
  lemma NumericTextChars(s: string)
    ensures IsNumeric(s) ==> forall j :: 0 <= j < |s| ==> IsNumberWhite(s[j]) || IsNumberChar(s[j])
  {
    if IsNumeric(s) {
      var t0 := TrimStartWhite(s);
      var t := TrimEndWhite(t0);
      var u := if |t| > 0 && (t[0] == '+' || t[0] == '-') then t[1..] else t;
      MantissaChars(u, 0, false, false);
      TrimStartChars(s);
      TrimEndChars(t0);
      forall c | c in t ensures IsNumberChar(c) {
        var k :| 0 <= k < |t| && t[k] == c;
        if u != t && k > 0 {
          assert t[k] == u[k - 1];
        } else if u == t {
          assert u[k] == c;
        }
      }
    }
  }

  /** A text with a character that is neither number white space nor a number character is
      not numeric. */
  lemma NotNumericAt(s: string, k: nat)
    requires k < |s| && !IsNumberWhite(s[k]) && !IsNumberChar(s[k])
    ensures !IsNumeric(s)
  {
    NumericTextChars(s);
  }
}
