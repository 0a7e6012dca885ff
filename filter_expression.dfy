/**
 * A typed reading of the filter strings: a comparison of one field against a
 * quoted operand, or two comparisons joined by AND. Render gives the text the
 * builders produce and Parse reads it back, so a builder's output can be shown
 * to mean exactly the comparison it was asked for, whatever the value holds.
 */
module FilterExpression {
  import opened Outcomes
  import opened FilterText

  datatype Operator = Equal | Like

  datatype Expr =
    | Compare(field: string, op: Operator, operand: string)
    | And(left: Expr, right: Expr)

  /** The text between the field name and the operand, opening quote included. */
  function OperatorText(op: Operator): string {
    match op
    case Equal => " = '"
    case Like => " LIKE '"
  }

  function Render(e: Expr): string {
    match e
    case Compare(field, op, operand) => field + OperatorText(op) + EscapeApostrophe(operand) + "'"
    case And(left, right) => Render(left) + " AND " + Render(right)
  }

  /** A comparison whose field name Parse can delimit: it holds no blank. */
  predicate IsComparison(e: Expr) {
    e.Compare? && ' ' !in e.field
  }

  /** The shapes the builders produce: one comparison, or two joined by AND. */
  predicate WellFormed(e: Expr) {
    IsComparison(e) || (e.And? && IsComparison(e.left) && IsComparison(e.right))
  }

  /** Splits off the longest blank-free prefix. */
  function SplitField(s: string): (r: (string, string))
    ensures r.0 + r.1 == s && ' ' !in r.0
    ensures r.1 == [] || r.1[0] == ' '
  {
    if s == [] || s[0] == ' ' then ([], s)
    else
      var (field, rest) := SplitField(s[1..]);
      ([s[0]] + field, rest)
  }

  /**
   * Reads the body of a quoted literal that has already been opened: a doubled
   * apostrophe stands for one, a single apostrophe closes the literal. Gives the
   * unescaped content and what follows the closing apostrophe.
   */
  function ReadLiteral(s: string): Option<(string, string)>
    decreases |s|
  {
    if s == [] then None
    else if s[0] != Apostrophe then
      match ReadLiteral(s[1..])
      case None => None
      case Some((content, rest)) => Some(([s[0]] + content, rest))
    else if |s| >= 2 && s[1] == Apostrophe then
      match ReadLiteral(s[2..])
      case None => None
      case Some((content, rest)) => Some(([Apostrophe] + content, rest))
    else Some(([], s[1..]))
  }

  function ParseOperator(s: string): Option<(Operator, string)> {
    if |s| >= 4 && s[..4] == OperatorText(Equal) then Some((Equal, s[4..]))
    else if |s| >= 7 && s[..7] == OperatorText(Like) then Some((Like, s[7..]))
    else None
  }

  /** Reads one comparison from the front of s and gives what is left over. */
  function ParseComparison(s: string): Option<(Expr, string)> {
    var (field, afterField) := SplitField(s);
    match ParseOperator(afterField)
    case None => None
    case Some((op, afterOp)) =>
      match ReadLiteral(afterOp)
      case None => None
      case Some((operand, rest)) => Some((Compare(field, op, operand), rest))
  }

  function Parse(s: string): Option<Expr> {
    match ParseComparison(s)
    case None => None
    case Some((left, rest)) =>
      if rest == [] then Some(left)
      else if |rest| >= 5 && rest[..5] == " AND " then
        match ParseComparison(rest[5..])
        case None => None
        case Some((right, tail)) => if tail == [] then Some(And(left, right)) else None
      else None
  }

  /** An escaped value followed by a closing apostrophe reads back as the value. */
  lemma {:induction false} ReadLiteralEscaped(x: string, rest: string)
    requires rest == [] || rest[0] != Apostrophe
    ensures ReadLiteral(EscapeApostrophe(x) + [Apostrophe] + rest) == Some((x, rest))
  {
    if x == [] {
      var s := [Apostrophe] + rest;
      assert EscapeApostrophe(x) + [Apostrophe] + rest == s;
      assert s[1..] == rest;
    } else {
      var tail := EscapeApostrophe(x[1..]) + [Apostrophe] + rest;
      ReadLiteralEscaped(x[1..], rest);
      assert x == [x[0]] + x[1..];
      if x[0] == Apostrophe {
        var s := [Apostrophe, Apostrophe] + tail;
        assert EscapeApostrophe(x) == [Apostrophe, Apostrophe] + EscapeApostrophe(x[1..]);
        assert EscapeApostrophe(x) + [Apostrophe] + rest == s;
        assert s[2..] == tail;
        assert ReadLiteral(s) == Some(([Apostrophe] + x[1..], rest));
      } else {
        var s := [x[0]] + tail;
        assert EscapeApostrophe(x) == [x[0]] + EscapeApostrophe(x[1..]);
        assert EscapeApostrophe(x) + [Apostrophe] + rest == s;
        assert s[1..] == tail;
        assert ReadLiteral(s) == Some(([x[0]] + x[1..], rest));
      }
    }
  }

  lemma {:induction false} SplitFieldAppend(field: string, t: string)
    requires ' ' !in field
    requires t == [] || t[0] == ' '
    ensures SplitField(field + t) == (field, t)
  {
    if field == [] {
      assert field + t == t;
    } else {
      assert (field + t)[1..] == field[1..] + t;
      assert ' ' !in field[1..];
      SplitFieldAppend(field[1..], t);
      assert field == [field[0]] + field[1..];
    }
  }

  lemma ParseOperatorText(op: Operator, t: string)
    ensures ParseOperator(OperatorText(op) + t) == Some((op, t))
  {
    var s := OperatorText(op) + t;
    if op == Equal {
      assert s[..4] == " = '";
      assert s[4..] == t;
    } else {
      assert s[1] == 'L' != '=';
      assert s[..4] != " = '";
      assert s[..7] == " LIKE '";
      assert s[7..] == t;
    }
  }

  /** A rendered comparison reads back as itself, leaving what followed it. */
  lemma ParseComparisonRender(e: Expr, rest: string)
    requires IsComparison(e)
    requires rest == [] || rest[0] != Apostrophe
    ensures ParseComparison(Render(e) + rest) == Some((e, rest))
  {
    var body := EscapeApostrophe(e.operand) + [Apostrophe] + rest;
    var afterField := OperatorText(e.op) + body;
    assert Render(e) + rest == e.field + afterField;
    SplitFieldAppend(e.field, afterField);
    ParseOperatorText(e.op, body);
    ReadLiteralEscaped(e.operand, rest);
  }

  /** Parse inverts Render on every well-formed expression. */
  lemma ParseRender(e: Expr)
    requires WellFormed(e)
    ensures Parse(Render(e)) == Some(e)
  {
    if IsComparison(e) {
      ParseComparisonRender(e, []);
      assert Render(e) + [] == Render(e);
    } else {
      var rest := " AND " + Render(e.right);
      assert Render(e) == Render(e.left) + rest;
      ParseComparisonRender(e.left, rest);
      assert rest[..5] == " AND " && rest[5..] == Render(e.right);
      ParseComparisonRender(e.right, []);
      assert Render(e.right) + [] == Render(e.right);
    }
  }

  /** Two well-formed expressions that render alike are the same expression. */
  lemma RenderInjective(e1: Expr, e2: Expr)
    requires WellFormed(e1) && WellFormed(e2)
    requires Render(e1) == Render(e2)
    ensures e1 == e2
  {
    ParseRender(e1);
    ParseRender(e2);
  }

  lemma StartsWithRenders(field: string, value: string)
    ensures StartsWithFilter(field, value) == Render(Compare(field, Like, value + "%"))
  {
    EscapeConcat(value, "%");
    assert EscapeApostrophe("%") == "%";
  }

  lemma ContainsRenders(field: string, value: string)
    ensures ContainsFilter(field, value) == Render(Compare(field, Like, "%" + value + "%"))
  {
    EscapeConcat("%", value);
    EscapeConcat("%" + value, "%");
    assert EscapeApostrophe("%") == "%";
  }

  lemma EndsWithRenders(field: string, value: string)
    ensures EndsWithFilter(field, value) == Render(Compare(field, Like, "%" + value))
  {
    EscapeConcat("%", value);
    assert EscapeApostrophe("%") == "%";
  }

  /** Each builder renders the comparison it names; the LIKE wildcards become part of the operand. */
  lemma BuildersRender(field: string, value: string)
    ensures EqualsFilter(field, value) == Render(Compare(field, Equal, value))
    ensures StartsWithFilter(field, value) == Render(Compare(field, Like, value + "%"))
    ensures ContainsFilter(field, value) == Render(Compare(field, Like, "%" + value + "%"))
    ensures EndsWithFilter(field, value) == Render(Compare(field, Like, "%" + value))
  {
    StartsWithRenders(field, value);
    ContainsRenders(field, value);
    EndsWithRenders(field, value);
  }

  lemma TwoEqualsRenders(field1: string, value1: string, field2: string, value2: string)
    ensures TwoEqualsFilter(field1, value1, field2, value2)
         == Render(And(Compare(field1, Equal, value1), Compare(field2, Equal, value2)))
  {
  }

  /**
   * Whatever the value holds (apostrophes, AND, further comparisons), each builder's
   * filter reads back as one comparison of the field against exactly that value.
   */
  lemma BuildersQuoteSafe(field: string, value: string)
    requires ' ' !in field
    ensures Parse(EqualsFilter(field, value)) == Some(Compare(field, Equal, value))
    ensures Parse(StartsWithFilter(field, value)) == Some(Compare(field, Like, value + "%"))
    ensures Parse(ContainsFilter(field, value)) == Some(Compare(field, Like, "%" + value + "%"))
    ensures Parse(EndsWithFilter(field, value)) == Some(Compare(field, Like, "%" + value))
  {
    BuildersRender(field, value);
    ParseRender(Compare(field, Equal, value));
    ParseRender(Compare(field, Like, value + "%"));
    ParseRender(Compare(field, Like, "%" + value + "%"));
    ParseRender(Compare(field, Like, "%" + value));
  }

  lemma TwoEqualsQuoteSafe(field1: string, value1: string, field2: string, value2: string)
    requires ' ' !in field1 && ' ' !in field2
    ensures Parse(TwoEqualsFilter(field1, value1, field2, value2))
         == Some(And(Compare(field1, Equal, value1), Compare(field2, Equal, value2)))
  {
    TwoEqualsRenders(field1, value1, field2, value2);
    ParseRender(And(Compare(field1, Equal, value1), Compare(field2, Equal, value2)));
  }

  /**
   * Through the condition overload the stored pattern carries the value escaped once
   * already, so it reads back as the value itself exactly when the value holds no
   * apostrophe.
   */
  lemma ConditionOperand(field: string, value: string)
    requires ' ' !in field
    ensures Parse(ConditionFilter(field, value, StartsWith).value)
         == Some(Compare(field, Like, EscapeApostrophe(value) + "%"))
    ensures Parse(ConditionFilter(field, value, Contains).value)
         == Some(Compare(field, Like, "%" + EscapeApostrophe(value) + "%"))
    ensures Parse(ConditionFilter(field, value, EndsWith).value)
         == Some(Compare(field, Like, "%" + EscapeApostrophe(value)))
    ensures EscapeApostrophe(value) == value <==> Apostrophe !in value
  {
    BuildersQuoteSafe(field, EscapeApostrophe(value));
    EscapeUnchangedIff(value);
  }
}
