/**
 * The AG Grid filter-model translator of sqliter/ag_grid.go.
 *
 * The JSON document is decoded by encoding/json, which is not modelled:
 * BuildWhereClause receives the decoding result next to the raw text.
 * A filter model is a Go map; it is given here as a sequence of
 * (column, filter) pairs in whatever order the map is iterated.
 */
module AgGrid {
  import opened Values
  import opened Text
  import SqlUtil

  /** The "%f" rendering of a float64: [-]digits.dddddd, or NaN, +Inf, -Inf. */
  predicate IsFixedNumeral(s: string)
  {
    || s == "NaN" || s == "+Inf" || s == "-Inf"
    || (var u := if |s| > 0 && s[0] == '-' then s[1..] else s;
        |u| >= 8 && u[|u| - 7] == '.' && AllDigits(u[..|u| - 7]) && AllDigits(u[|u| - 6..]))
  }

  type FixedNumeral = s: string | IsFixedNumeral(s) witness "NaN"

  /**
   * A JSON value decoded into `interface{}`. JSON numbers arrive as float64
   * (carried as their "%f" and "%v" renderings); the Go `int` case exists
   * only in validateNumber's type switch; objects and arrays carry the
   * type name "%T" prints and their "%v" rendering.
   */
  datatype JsonValue =
    | JNull
    | JBool(b: bool)
    | JFloat(fixed: FixedNumeral, plain: string)
    | JInt(i: int)
    | JString(s: string)
    | JComposite(typeName: string, plain: string)

  /** AgFilter: leaf fields and composite fields side by side, as in the Go struct. Absent values are JNull. */
  datatype AgFilter = AgFilter(
    filterType: string,
    typ: string,
    filter: JsonValue,
    filterTo: JsonValue,
    operator: string,
    condition1: Option<AgFilter>,
    condition2: Option<AgFilter>)

  /** fmt.Sprintf("%v", v) */
  function Show(v: JsonValue): string
  {
    match v
    case JNull => "<nil>"
    case JBool(b) => if b then "true" else "false"
    case JFloat(_, p) => p
    case JInt(i) => IntToString(i)
    case JString(s) => s
    case JComposite(_, p) => p
  }

  /** The "%T" name of a value's dynamic type. */
  function TypeName(v: JsonValue): string
  {
    match v
    case JNull => "<nil>"
    case JBool(_) => "bool"
    case JFloat(_, _) => "float64"
    case JInt(_) => "int"
    case JString(_) => "string"
    case JComposite(t, _) => t
  }

  // ---- strconv.ParseFloat syntax (decimal forms) ----

  predicate IsMantissa(m: string)
  {
    && Count(m, '.') <= 1
    && (exists i :: 0 <= i < |m| && IsDigit(m[i]))
    && forall i :: 0 <= i < |m| ==> IsDigit(m[i]) || m[i] == '.'
  }

  predicate IsExponent(x: string)
  {
    if |x| >= 1 && (x[0] == '+' || x[0] == '-') then AllDigits(x[1..]) else AllDigits(x)
  }

  /** Position of the first 'e' or 'E', or |s|. */
  function ExponentMark(s: string): (k: nat)
    ensures k <= |s|
    ensures k < |s| ==> s[k] == 'e' || s[k] == 'E'
    ensures forall i :: 0 <= i < k ==> s[i] != 'e' && s[i] != 'E'
  {
    if s == [] then 0 else if s[0] == 'e' || s[0] == 'E' then 0 else 1 + ExponentMark(s[1..])
  }

  function StripSign(s: string): string
  {
    if |s| > 0 && (s[0] == '+' || s[0] == '-') then s[1..] else s
  }

  /**
   * The strings strconv.ParseFloat accepts in decimal form: an optional
   * sign, digits with at most one '.', an optional exponent; or "inf",
   * "infinity" (optionally signed) and "nan", in any letter case. The
   * float64 range is not checked: "1e400" is accepted here.
   */
  predicate IsFloatString(s: string)
  {
    var u := StripSign(s);
    var k := ExponentMark(u);
    || Lower(u) == "inf" || Lower(u) == "infinity" || Lower(s) == "nan"
    || (IsMantissa(u[..k]) && (k == |u| || IsExponent(u[k + 1..])))
  }

  /** The only characters a number literal may contain once validated. */
  predicate NumeralChar(c: char)
  {
    IsDigit(c) || c == '+' || c == '-' || c == '.' || LowerChar(c) in "einfaty"
  }

  /** validateNumber: float and int render as numerals; a string must parse as a float; anything else is refused. */
  function ValidateNumber(v: JsonValue): Result<string>
  {
    match v
    case JFloat(f, _) => Ok(f)
    case JInt(i) => Ok(IntToString(i))
    case JString(s) => if IsFloatString(s) then Ok(s) else Err("invalid number value: " + s)
    case _ => Err("invalid number value type: " + TypeName(v))
  }

  lemma LowerWordChars(w: string, word: string)
    requires Lower(w) == word
    requires forall c :: c in word ==> c in "einfaty"
    ensures forall i :: 0 <= i < |w| ==> NumeralChar(w[i])
  {
    forall i | 0 <= i < |w| ensures NumeralChar(w[i]) {
      assert Lower(w)[i] == LowerChar(w[i]);
      assert word[i] in word;
    }
  }

  lemma MantissaChars(m: string)
    requires IsMantissa(m)
    ensures forall i :: 0 <= i < |m| ==> NumeralChar(m[i])
  {
  }

  lemma ExponentChars(x: string)
    requires IsExponent(x)
    ensures forall i :: 0 <= i < |x| ==> NumeralChar(x[i])
  {
    if |x| >= 1 && (x[0] == '+' || x[0] == '-') {
      forall i | 1 <= i < |x| ensures NumeralChar(x[i]) { assert x[1..][i - 1] == x[i]; }
    }
  }

  /** A decimal form (mantissa, then optionally a mark and an exponent) holds numeral characters only. */
  lemma DecimalChars(u: string, k: nat)
    requires k <= |u| && (k < |u| ==> u[k] == 'e' || u[k] == 'E')
    requires IsMantissa(u[..k]) && (k == |u| || IsExponent(u[k + 1..]))
    ensures forall i :: 0 <= i < |u| ==> NumeralChar(u[i])
  {
    var m := u[..k];
    MantissaChars(m);
    var x := if k == |u| then "" else u[k + 1..];
    if k < |u| {
      ExponentChars(x);
    }
    forall i | 0 <= i < |u| ensures NumeralChar(u[i]) {
      if i < k {
        assert m[i] == u[i];
      } else if i > k {
        assert x[i - k - 1] == u[i];
      } else {
        assert LowerChar(u[k]) == 'e';
      }
    }
  }

  /** A sign in front of numeral characters keeps the string numeral. */
  lemma SignedChars(s: string)
    requires forall i :: 0 <= i < |StripSign(s)| ==> NumeralChar(StripSign(s)[i])
    ensures forall i :: 0 <= i < |s| ==> NumeralChar(s[i])
  {
    var u := StripSign(s);
    if |s| > 0 && (s[0] == '+' || s[0] == '-') {
      forall i | 1 <= i < |s| ensures NumeralChar(s[i]) { assert u[i - 1] == s[i]; }
    }
  }

  /** Every string ParseFloat accepts is made of numeral characters only: no quote, space or parenthesis. */
  lemma FloatStringChars(s: string)
    requires IsFloatString(s)
    ensures forall i :: 0 <= i < |s| ==> NumeralChar(s[i])
  {
    var u := StripSign(s);
    if Lower(s) == "nan" {
      assert forall c :: c in "nan" ==> c in "einfaty";
      LowerWordChars(s, "nan");
    } else {
      if Lower(u) == "inf" {
        assert forall c :: c in "inf" ==> c in "einfaty";
        LowerWordChars(u, "inf");
      } else if Lower(u) == "infinity" {
        assert forall c :: c in "infinity" ==> c in "einfaty";
        LowerWordChars(u, "infinity");
      } else {
        DecimalChars(u, ExponentMark(u));
      }
      SignedChars(s);
    }
  }

  /** The number guard: a literal that passes validation contains numeral characters only. */
  lemma ValidatedNumberChars(v: JsonValue)
    requires ValidateNumber(v).Ok?
    ensures forall i :: 0 <= i < |ValidateNumber(v).value| ==> NumeralChar(ValidateNumber(v).value[i])
  {
    match v
    case JString(s) => FloatStringChars(s);
    case JInt(i) =>
    case JFloat(f, _) =>
      if f != "NaN" && f != "+Inf" && f != "-Inf" {
        var u := if |f| > 0 && f[0] == '-' then f[1..] else f;
        forall i | 0 <= i < |u| ensures NumeralChar(u[i]) {
          if i < |u| - 7 { assert u[..|u| - 7][i] == u[i]; }
          else if i > |u| - 7 { assert u[|u| - 6..][i - (|u| - 6)] == u[i]; }
        }
        if |f| > 0 && f[0] == '-' {
          forall i | 1 <= i < |f| ensures NumeralChar(f[i]) { assert u[i - 1] == f[i]; }
        }
      }
  }

  // ---- leaf conditions ----

  /** The comparison each text filter type stands for: (operator, leading wildcard, trailing wildcard). */
  function TextOperator(typ: string): Option<(string, string, string)>
  {
    if typ == "equals" then Some(("=", "", ""))
    else if typ == "notEqual" then Some(("!=", "", ""))
    else if typ == "contains" then Some(("LIKE", "%", "%"))
    else if typ == "notContains" then Some(("NOT LIKE", "%", "%"))
    else if typ == "startsWith" then Some(("LIKE", "", "%"))
    else if typ == "endsWith" then Some(("LIKE", "%", ""))
    else None
  }

  /** The comparison operator of each single-value number filter type. */
  function NumberOperator(typ: string): Option<string>
  {
    if typ == "equals" then Some("=")
    else if typ == "notEqual" then Some("!=")
    else if typ == "greaterThan" then Some(">")
    else if typ == "greaterThanOrEqual" then Some(">=")
    else if typ == "lessThan" then Some("<")
    else if typ == "lessThanOrEqual" then Some("<=")
    else None
  }

  /** A text leaf: the value, with every ' doubled, inside a single-quoted literal between the operator's wildcards. */
  function TextCondition(qcol: string, typ: string, value: string): Result<string>
  {
    match TextOperator(typ)
    case None => Err("unsupported text filter type: " + typ)
    case Some((op, pre, suf)) => Ok(qcol + " " + op + " '" + pre + Double(value, '\'') + suf + "'")
  }

  /** A number leaf: the value is validated first, then the type is looked at. */
  function NumberCondition(qcol: string, f: AgFilter): Result<string>
  {
    match ValidateNumber(f.filter)
    case Err(e) => Err(e)
    case Ok(v) =>
      if NumberOperator(f.typ).Some? then Ok(qcol + " " + NumberOperator(f.typ).value + " " + v)
      else if f.typ == "inRange" then
        (match ValidateNumber(f.filterTo)
         case Err(e) => Err(e)
         case Ok(to) => Ok(qcol + " >= " + v + " AND " + qcol + " <= " + to))
      else Err("unsupported number filter type: " + f.typ)
  }

  /** The keyword joining a composite's two conditions. */
  function JoinOperator(operator: string): string
  {
    if Upper(operator) == "OR" then "OR" else "AND"
  }

  /** buildCondition: a non-empty operator makes the filter composite; other filter types render as "". */
  function BuildCondition(col: string, f: AgFilter): Result<string>
    decreases f
  {
    if f.operator != "" then
      if f.condition1.None? || f.condition2.None? then Err("invalid complex filter for column " + col)
      else
        match BuildCondition(col, f.condition1.value)
        case Err(e) => Err(e)
        case Ok(c1) =>
          match BuildCondition(col, f.condition2.value)
          case Err(e) => Err(e)
          case Ok(c2) => Ok("(" + c1 + " " + JoinOperator(f.operator) + " " + c2 + ")")
    else if f.filterType == "text" then TextCondition(SqlUtil.QuoteIdentifier(col), f.typ, Show(f.filter))
    else if f.filterType == "number" then NumberCondition(SqlUtil.QuoteIdentifier(col), f)
    else Ok("")
  }

  /** Which filters translate without error, defined independently of the rendering. */
  predicate WellFormed(f: AgFilter)
    decreases f
  {
    if f.operator != "" then
      f.condition1.Some? && f.condition2.Some? && WellFormed(f.condition1.value) && WellFormed(f.condition2.value)
    else if f.filterType == "text" then TextOperator(f.typ).Some?
    else if f.filterType == "number" then
      && ValidateNumber(f.filter).Ok?
      && (NumberOperator(f.typ).Some? || (f.typ == "inRange" && ValidateNumber(f.filterTo).Ok?))
    else true
  }

  /** Translation fails exactly for the filters that are not well formed: an unsupported type, a bad number, a missing child. */
  lemma {:induction false} BuildConditionOk(col: string, f: AgFilter)
    ensures BuildCondition(col, f).Ok? <==> WellFormed(f)
    decreases f
  {
    if f.operator != "" && f.condition1.Some? && f.condition2.Some? {
      BuildConditionOk(col, f.condition1.value);
      BuildConditionOk(col, f.condition2.value);
    }
  }

  /** A condition is empty exactly when the filter is a leaf of a type other than text and number. */
  lemma BuildConditionEmpty(col: string, f: AgFilter)
    requires BuildCondition(col, f).Ok?
    ensures BuildCondition(col, f).value == "" <==> f.operator == "" && f.filterType != "text" && f.filterType != "number"
  {
    var q := SqlUtil.QuoteIdentifier(col);
    if f.operator == "" && f.filterType == "text" {
      assert |BuildCondition(col, f).value| >= 3;
    } else if f.operator == "" && f.filterType == "number" {
      assert |BuildCondition(col, f).value| >= 3;
    }
  }

  /** The text literal's body reads back, with doubled quotes undone, to the value compared against. */
  lemma TextLiteralRoundTrip(qcol: string, typ: string, value: string)
    ensures TextCondition(qcol, typ, value).Ok? <==> TextOperator(typ).Some?
    ensures TextOperator(typ).Some? ==>
      var (op, pre, suf) := TextOperator(typ).value;
      exists body ::
        && TextCondition(qcol, typ, value).value == qcol + " " + op + " '" + pre + body + suf + "'"
        && Undouble(body, '\'') == value
  {
    if TextOperator(typ).Some? {
      var (op, pre, suf) := TextOperator(typ).value;
      var body := Double(value, '\'');
      UndoubleDouble(value, '\'');
      assert TextCondition(qcol, typ, value).value == qcol + " " + op + " '" + pre + body + suf + "'";
    }
  }

  /** The injection guard: an accepted number leaf ends in the operator and a literal of numeral characters only. */
  lemma NumberConditionShape(qcol: string, f: AgFilter)
    requires f.operator == "" && f.filterType == "number"
    requires NumberCondition(qcol, f).Ok?
    ensures ValidateNumber(f.filter).Ok?
    ensures var lit := ValidateNumber(f.filter).value;
      && (forall i :: 0 <= i < |lit| ==> NumeralChar(lit[i]))
      && (NumberOperator(f.typ).Some? ==> NumberCondition(qcol, f).value == qcol + " " + NumberOperator(f.typ).value + " " + lit)
      && (f.typ == "inRange" ==>
            ValidateNumber(f.filterTo).Ok?
            && (forall i :: 0 <= i < |ValidateNumber(f.filterTo).value| ==> NumeralChar(ValidateNumber(f.filterTo).value[i]))
            && NumberCondition(qcol, f).value == qcol + " >= " + lit + " AND " + qcol + " <= " + ValidateNumber(f.filterTo).value)
  {
    ValidatedNumberChars(f.filter);
    if f.typ == "inRange" {
      ValidatedNumberChars(f.filterTo);
    }
  }

  /** A string with a character outside the numeral set is refused as a number. */
  lemma NonNumeralRefused(s: string, i: nat)
    requires i < |s| && !NumeralChar(s[i])
    ensures ValidateNumber(JString(s)).Err?
  {
    if IsFloatString(s) {
      FloatStringChars(s);
    }
  }

  /** The injection attempt "1 OR 1=1" in a number filter is refused: a space is not a numeral character. */
  lemma InjectionRefused(col: string)
    ensures BuildCondition(col, AgFilter("number", "greaterThan", JString("1 OR 1=1"), JNull, "", None, None)).Err?
  {
    var s := "1 OR 1=1";
    assert s[1] == ' ';
    NonNumeralRefused(s, 1);
  }

  /**
   * A composite joins its children's conditions with OR when its operator
   * reads "or" in any letter case, and with AND for every other operator,
   * "and" and unknown ones such as "xor" alike.
   */
  lemma CompositeJoin(col: string, c1: AgFilter, c2: AgFilter, r1: string, r2: string)
    requires BuildCondition(col, c1) == Ok(r1) && BuildCondition(col, c2) == Ok(r2)
    ensures BuildCondition(col, AgFilter("text", "", JNull, JNull, "OR", Some(c1), Some(c2))) == Ok("(" + r1 + " OR " + r2 + ")")
    ensures BuildCondition(col, AgFilter("text", "", JNull, JNull, "or", Some(c1), Some(c2))) == Ok("(" + r1 + " OR " + r2 + ")")
    ensures BuildCondition(col, AgFilter("text", "", JNull, JNull, "Or", Some(c1), Some(c2))) == Ok("(" + r1 + " OR " + r2 + ")")
    ensures BuildCondition(col, AgFilter("text", "", JNull, JNull, "AND", Some(c1), Some(c2))) == Ok("(" + r1 + " AND " + r2 + ")")
    ensures BuildCondition(col, AgFilter("text", "", JNull, JNull, "and", Some(c1), Some(c2))) == Ok("(" + r1 + " AND " + r2 + ")")
    ensures BuildCondition(col, AgFilter("text", "", JNull, JNull, "xor", Some(c1), Some(c2))) == Ok("(" + r1 + " AND " + r2 + ")")
  {
    assert Upper("OR") == "OR" && Upper("or") == "OR" && Upper("Or") == "OR";
    assert Upper("AND") != "OR" && Upper("and") != "OR" && Upper("xor") != "OR";
    var x := "(" + r1;
    AppendAssoc(x, " ", "OR");
    assert " " + "OR" == " OR";
    AppendAssoc(x, " OR", " ");
    assert " OR" + " " == " OR ";
    assert x + " " + "OR" + " " == x + " OR ";
    AppendAssoc(x, " ", "AND");
    assert " " + "AND" == " AND";
    AppendAssoc(x, " AND", " ");
    assert " AND" + " " == " AND ";
    assert x + " " + "AND" + " " == x + " AND ";
  }

  lemma AppendAssoc(x: string, a: string, b: string)
    ensures x + a + b == x + (a + b)
  {
  }

  /** A text leaf on a single column, as the grid sends it. */
  function TextLeaf(typ: string, value: string): AgFilter
  {
    AgFilter("text", typ, JString(value), JNull, "", None, None)
  }

  /** The comparison a text leaf renders after the column: its operator and its quoted literal. */
  function TextComparison(typ: string, value: string): string
    requires TextOperator(typ).Some?
  {
    var (op, pre, suf) := TextOperator(typ).value;
    op + " '" + pre + value + suf + "'"
  }

  /** A text leaf whose value holds no single quote renders the quoted column, a space and its comparison. */
  lemma TextLeafCondition(col: string, typ: string, value: string)
    requires TextOperator(typ).Some? && '\'' !in value
    ensures BuildCondition(col, TextLeaf(typ, value)) == Ok(SqlUtil.QuoteIdentifier(col) + " " + TextComparison(typ, value))
  {
    DoubleAbsent(value, '\'');
    var q := SqlUtil.QuoteIdentifier(col);
    var (op, pre, suf) := TextOperator(typ).value;
    assert BuildCondition(col, TextLeaf(typ, value)) == TextCondition(q, typ, value);
    assert q + " " + op + " '" + pre + value + suf + "'" == q + " " + (op + " '" + pre + value + suf + "'");
  }

  /** Doubling a character the text does not hold changes nothing. */
  lemma {:induction false} DoubleAbsent(s: string, q: char)
    requires q !in s
    ensures Double(s, q) == s
  {
    if s != [] {
      assert q !in s[1..];
      DoubleAbsent(s[1..], q);
    }
  }

  /** The comparisons of the example leaves. */
  lemma ExampleComparisons()
    ensures '\'' !in "active" && '\'' !in "inactive_temp" && '\'' !in "A" && '\'' !in "B"
    ensures " " + TextComparison("contains", "active") == " LIKE '%active%'"
    ensures " " + TextComparison("notEqual", "inactive_temp") == " != 'inactive_temp'"
    ensures " " + TextComparison("equals", "A") == " = 'A'"
    ensures " " + TextComparison("equals", "B") == " = 'B'"
  {
  }

  /** A model with a single column keeps that column's condition in its own parentheses. */
  lemma SingleColumn(input: string, col: string, f: AgFilter, c: string)
    requires input != "" && c != "" && BuildCondition(col, f) == Ok(c)
    ensures BuildWhereClause(input, Model([(col, f)])) == Ok("(" + c + ")")
  {
    var entries := [(col, f)];
    assert entries[1..] == [];
    assert Collect(entries) == Ok(Wrapped(c) + []);
    assert Wrapped(c) + [] == ["(" + c + ")"];
  }

  /**
   * The composite cases of the grid's filter examples, for the column
   * "status" or any other: AND and OR join the two leaf conditions of the
   * column inside one pair of parentheses, and the loop adds the column's
   * own pair; "or" in lower case also joins with OR.
   */
  lemma CompositeExamples(input: string, col: string)
    requires input != ""
    ensures var q := SqlUtil.QuoteIdentifier(col);
      var active, inactive := q + " LIKE '%active%'", q + " != 'inactive_temp'";
      BuildWhereClause(input, Model([(col,
        AgFilter("text", "", JNull, JNull, "AND",
          Some(TextLeaf("contains", "active")), Some(TextLeaf("notEqual", "inactive_temp"))))]))
      == Ok("(" + ("(" + active + " AND " + inactive + ")") + ")")
    ensures var q := SqlUtil.QuoteIdentifier(col);
      var a, b := q + " = 'A'", q + " = 'B'";
      && BuildWhereClause(input, Model([(col,
          AgFilter("text", "", JNull, JNull, "OR",
            Some(TextLeaf("equals", "A")), Some(TextLeaf("equals", "B"))))]))
        == Ok("(" + ("(" + a + " OR " + b + ")") + ")")
      && BuildCondition(col,
          AgFilter("text", "", JNull, JNull, "or",
            Some(TextLeaf("equals", "A")), Some(TextLeaf("equals", "B"))))
        == Ok("(" + a + " OR " + b + ")")
  {
    var q := SqlUtil.QuoteIdentifier(col);
    ExampleComparisons();
    TextLeafCondition(col, "contains", "active");
    TextLeafCondition(col, "notEqual", "inactive_temp");
    TextLeafCondition(col, "equals", "A");
    TextLeafCondition(col, "equals", "B");
    var active, inactive := q + " LIKE '%active%'", q + " != 'inactive_temp'";
    var a, b := q + " = 'A'", q + " = 'B'";
    AppendAssoc(q, " ", TextComparison("contains", "active"));
    AppendAssoc(q, " ", TextComparison("notEqual", "inactive_temp"));
    AppendAssoc(q, " ", TextComparison("equals", "A"));
    AppendAssoc(q, " ", TextComparison("equals", "B"));
    CompositeJoin(col, TextLeaf("contains", "active"), TextLeaf("notEqual", "inactive_temp"), active, inactive);
    CompositeJoin(col, TextLeaf("equals", "A"), TextLeaf("equals", "B"), a, b);
    SingleColumn(input, col, AgFilter("text", "", JNull, JNull, "AND",
      Some(TextLeaf("contains", "active")), Some(TextLeaf("notEqual", "inactive_temp"))), "(" + active + " AND " + inactive + ")");
    SingleColumn(input, col, AgFilter("text", "", JNull, JNull, "OR",
      Some(TextLeaf("equals", "A")), Some(TextLeaf("equals", "B"))), "(" + a + " OR " + b + ")");
  }

  // ---- the whole model ----

  /** The per-column loop: the first error aborts; non-empty conditions are kept, parenthesised. */
  function Collect(entries: seq<(string, AgFilter)>): Result<seq<string>>
  {
    if entries == [] then Ok([])
    else
      match BuildCondition(entries[0].0, entries[0].1)
      case Err(e) => Err(e)
      case Ok(c) =>
        match Collect(entries[1..])
        case Err(e) => Err(e)
        case Ok(rest) => Ok(Wrapped(c) + rest)
  }

  /** A column's condition as kept by the loop: parenthesised, or nothing when it is empty. */
  function Wrapped(c: string): (w: seq<string>)
    ensures |w| == (if c == "" then 0 else 1)
    ensures forall k :: 0 <= k < |w| ==> Parenthesised(w[k]) && w[k][1..|w[k]| - 1] == c
  {
    if c != "" then ["(" + c + ")"] else []
  }

  /** A condition as the loop keeps it: at least one character between an opening and a closing parenthesis. */
  predicate Parenthesised(s: string)
  {
    |s| >= 3 && s[0] == '(' && s[|s| - 1] == ')'
  }

  /** Decoding result of the filter-model JSON text (encoding/json is not modelled). */
  datatype Decoded = Malformed(error: string) | Model(entries: seq<(string, AgFilter)>)

  /** BuildWhereClause: "" for empty input, the decoding error, or the conditions joined by " AND ". */
  function BuildWhereClause(input: string, decoded: Decoded): Result<string>
  {
    if input == "" then Ok("")
    else
      match decoded
      case Malformed(e) => Err(e)
      case Model(entries) =>
        match Collect(entries)
        case Err(e) => Err(e)
        case Ok(conds) => Ok(Join(conds, " AND "))
  }

  predicate Ignored(f: AgFilter)
  {
    f.operator == "" && f.filterType != "text" && f.filterType != "number"
  }

  /** Number of columns whose filter contributes a condition. */
  function Contributing(entries: seq<(string, AgFilter)>): nat
  {
    if entries == [] then 0 else (if Ignored(entries[0].1) then 0 else 1) + Contributing(entries[1..])
  }

  /** The loop succeeds exactly when every column's filter is well formed. */
  lemma {:induction false} CollectOk(entries: seq<(string, AgFilter)>)
    ensures Collect(entries).Ok? <==> forall i :: 0 <= i < |entries| ==> WellFormed(entries[i].1)
  {
    if entries != [] {
      CollectOk(entries[1..]);
      BuildConditionOk(entries[0].0, entries[0].1);
      assert forall i :: 1 <= i < |entries| ==> entries[1..][i - 1] == entries[i];
    }
  }

  /** One step of the loop: a successful run over several columns is the first column's kept condition followed by the rest. */
  lemma CollectCons(entries: seq<(string, AgFilter)>)
    requires entries != [] && Collect(entries).Ok?
    ensures BuildCondition(entries[0].0, entries[0].1).Ok? && Collect(entries[1..]).Ok?
    ensures Collect(entries).value == Wrapped(BuildCondition(entries[0].0, entries[0].1).value) + Collect(entries[1..]).value
  {
  }

  /** The loop stops at the first column whose filter is not well formed and returns that column's error. */
  lemma {:induction false} CollectFirstError(entries: seq<(string, AgFilter)>, i: int)
    requires 0 <= i < |entries|
    requires forall j :: 0 <= j < i ==> WellFormed(entries[j].1)
    requires !WellFormed(entries[i].1)
    ensures BuildCondition(entries[i].0, entries[i].1).Err?
    ensures Collect(entries) == Err(BuildCondition(entries[i].0, entries[i].1).msg)
  {
    BuildConditionOk(entries[0].0, entries[0].1);
    BuildConditionOk(entries[i].0, entries[i].1);
    if i > 0 {
      assert forall j :: 0 <= j < i - 1 ==> entries[1..][j] == entries[j + 1];
      CollectFirstError(entries[1..], i - 1);
    }
  }

  /** When the loop succeeds it keeps one condition per column that is not of an ignored type. */
  lemma {:induction false} CollectCount(entries: seq<(string, AgFilter)>)
    requires Collect(entries).Ok?
    ensures |Collect(entries).value| == Contributing(entries)
  {
    if entries != [] {
      CollectCons(entries);
      CollectCount(entries[1..]);
      BuildConditionEmpty(entries[0].0, entries[0].1);
    }
  }

  /** Every condition the loop keeps is parenthesised and non-empty. */
  lemma {:induction false} CollectParenthesised(entries: seq<(string, AgFilter)>)
    requires Collect(entries).Ok?
    ensures forall k :: 0 <= k < |Collect(entries).value| ==> Parenthesised(Collect(entries).value[k])
  {
    if entries != [] {
      CollectCons(entries);
      var w := Wrapped(BuildCondition(entries[0].0, entries[0].1).value);
      var rest := Collect(entries[1..]).value;
      CollectParenthesised(entries[1..]);
      ParenthesisedAppend(w, rest);
    }
  }

  /** Appending two lists of parenthesised conditions keeps every entry parenthesised. */
  lemma ParenthesisedAppend(w: seq<string>, rest: seq<string>)
    requires forall k :: 0 <= k < |w| ==> Parenthesised(w[k])
    requires forall k :: 0 <= k < |rest| ==> Parenthesised(rest[k])
    ensures forall k :: 0 <= k < |w + rest| ==> Parenthesised((w + rest)[k])
  {
    forall k | 0 <= k < |w + rest| ensures Parenthesised((w + rest)[k]) {
      if k >= |w| {
        assert (w + rest)[k] == rest[k - |w|];
      }
    }
  }

  /** Empty input is never decoded and yields no condition. */
  lemma EmptyInput(decoded: Decoded)
    ensures BuildWhereClause("", decoded) == Ok("")
  {
  }

  /**
   * For non-empty input, translation succeeds exactly when the JSON decodes
   * and every column's filter is well formed; the result is empty exactly
   * when every column is of an ignored type.
   */
  lemma BuildWhereClauseSpec(input: string, decoded: Decoded)
    requires input != ""
    ensures BuildWhereClause(input, decoded).Ok? <==>
      decoded.Model? && forall i :: 0 <= i < |decoded.entries| ==> WellFormed(decoded.entries[i].1)
    ensures BuildWhereClause(input, decoded).Ok? ==>
      (BuildWhereClause(input, decoded).value == "" <==> Contributing(decoded.entries) == 0)
    ensures decoded.Malformed? ==> BuildWhereClause(input, decoded) == Err(decoded.error)
    ensures decoded.Model? ==> forall i ::
      (0 <= i < |decoded.entries| && (forall j :: 0 <= j < i ==> WellFormed(decoded.entries[j].1))
        && !WellFormed(decoded.entries[i].1)) ==>
        && BuildCondition(decoded.entries[i].0, decoded.entries[i].1).Err?
        && BuildWhereClause(input, decoded) == Err(BuildCondition(decoded.entries[i].0, decoded.entries[i].1).msg)
    ensures BuildWhereClause(input, decoded).Ok? ==>
      var conds := Collect(decoded.entries).value;
      && BuildWhereClause(input, decoded).value == Join(conds, " AND ")
      && |conds| == Contributing(decoded.entries)
      && forall k :: 0 <= k < |conds| ==> Parenthesised(conds[k])
  {
    if decoded.Model? {
      forall i | 0 <= i < |decoded.entries| &&
        (forall j :: 0 <= j < i ==> WellFormed(decoded.entries[j].1)) && !WellFormed(decoded.entries[i].1)
        ensures BuildCondition(decoded.entries[i].0, decoded.entries[i].1).Err?
        ensures BuildWhereClause(input, decoded) == Err(BuildCondition(decoded.entries[i].0, decoded.entries[i].1).msg)
      {
        CollectFirstError(decoded.entries, i);
      }
      CollectOk(decoded.entries);
      if Collect(decoded.entries).Ok? {
        CollectCount(decoded.entries);
        CollectParenthesised(decoded.entries);
      }
      var r := Collect(decoded.entries);
      if r.Ok? && |r.value| > 1 {
        assert Join(r.value, " AND ") == r.value[0] + " AND " + Join(r.value[1..], " AND ");
      }
    }
  }
}
