/**
 * The filter strings the extension methods interpolate, written as functions of
 * their arguments, and the apostrophe escaping they rely on.
 */
module FilterText {
  import opened Outcomes

  /** The condition kinds a caller can pick; Select means "none chosen yet". */
  datatype FilterCondition = Select | StartsWith | Contains | EndsWith

  const Apostrophe: char := '\''

  /** Doubles every apostrophe, so that the value can sit inside a quoted literal. */
  function EscapeApostrophe(s: string): (r: string)
    ensures |r| >= |s|
  {
    if s == [] then []
    else (if s[0] == Apostrophe then [Apostrophe, Apostrophe] else [s[0]]) + EscapeApostrophe(s[1..])
  }

  /** `field = 'value'` */
  function EqualsFilter(field: string, value: string): string {
    field + " = '" + EscapeApostrophe(value) + "'"
  }

  /** `field1 = 'value1' AND field2 = 'value2'` */
  function TwoEqualsFilter(field1: string, value1: string, field2: string, value2: string): string {
    field1 + " = '" + EscapeApostrophe(value1) + "' AND " + field2 + " = '" + EscapeApostrophe(value2) + "'"
  }

  /** `field LIKE '%value%'` */
  function ContainsFilter(field: string, value: string): string {
    field + " LIKE '%" + EscapeApostrophe(value) + "%'"
  }

  /** `field LIKE 'value%'` */
  function StartsWithFilter(field: string, value: string): string {
    field + " LIKE '" + EscapeApostrophe(value) + "%'"
  }

  /** `field LIKE '%value'` */
  function EndsWithFilter(field: string, value: string): string {
    field + " LIKE '%" + EscapeApostrophe(value) + "'"
  }

  /**
   * The filter the condition overload ends up storing, or None when the condition
   * matches no case. The overload escapes the value before handing it to a builder
   * that escapes it again.
   */
  function ConditionFilter(field: string, value: string, condition: FilterCondition): Option<string> {
    match condition
    case StartsWith => Some(StartsWithFilter(field, EscapeApostrophe(value)))
    case Contains => Some(ContainsFilter(field, EscapeApostrophe(value)))
    case EndsWith => Some(EndsWithFilter(field, EscapeApostrophe(value)))
    case Select => None
  }

  /** Escaping lengthens a value by one character per apostrophe. */
  lemma {:induction false} EscapeLength(s: string)
    ensures |EscapeApostrophe(s)| == |s| + multiset(s)[Apostrophe]
  {
    if s != [] {
      assert s == [s[0]] + s[1..];
      EscapeLength(s[1..]);
    }
  }

  /** Escaping distributes over concatenation. */
  lemma {:induction false} EscapeConcat(a: string, b: string)
    ensures EscapeApostrophe(a + b) == EscapeApostrophe(a) + EscapeApostrophe(b)
  {
    if a == [] {
      assert a + b == b;
    } else {
      assert (a + b)[0] == a[0];
      assert (a + b)[1..] == a[1..] + b;
      EscapeConcat(a[1..], b);
    }
  }

  /** Escaping changes a value exactly when the value holds an apostrophe. */
  lemma {:induction false} EscapeUnchangedIff(s: string)
    ensures EscapeApostrophe(s) == s <==> Apostrophe !in s
  {
    if Apostrophe in s {
      assert Apostrophe in multiset(s);
      EscapeLength(s);
    } else if s != [] {
      assert Apostrophe !in s[1..];
      EscapeUnchangedIff(s[1..]);
      assert s == [s[0]] + s[1..];
    }
  }

  /** Escaping turns each apostrophe into two and keeps every other character. */
  lemma {:induction false} EscapeDoublesApostrophes(s: string)
    ensures multiset(EscapeApostrophe(s))[Apostrophe] == 2 * multiset(s)[Apostrophe]
  {
    if s != [] {
      assert s == [s[0]] + s[1..];
      EscapeDoublesApostrophes(s[1..]);
    }
  }

  /** The two-condition filter is the two equalities joined by AND, in argument order. */
  lemma TwoEqualsJoins(field1: string, value1: string, field2: string, value2: string)
    ensures TwoEqualsFilter(field1, value1, field2, value2)
         == EqualsFilter(field1, value1) + " AND " + EqualsFilter(field2, value2)
  {
  }

  /**
   * The condition overload stores the same filter as calling the matching builder
   * with the raw value exactly when the value holds no apostrophe.
   */
  lemma ConditionMatchesDirect(field: string, value: string)
    ensures ConditionFilter(field, value, StartsWith) == Some(StartsWithFilter(field, value)) <==> Apostrophe !in value
    ensures ConditionFilter(field, value, Contains) == Some(ContainsFilter(field, value)) <==> Apostrophe !in value
    ensures ConditionFilter(field, value, EndsWith) == Some(EndsWithFilter(field, value)) <==> Apostrophe !in value
  {
    var e := EscapeApostrophe(value);
    EscapeUnchangedIff(value);
    if Apostrophe in value {
      assert Apostrophe in multiset(value);
      EscapeDoublesApostrophes(value);
      EscapeLength(value);
      EscapeLength(e);
      // the escaped value is strictly longer, and so is every filter built from it
      assert |EscapeApostrophe(e)| > |e| > |value|;
      assert |StartsWithFilter(field, e)| > |StartsWithFilter(field, value)|;
      assert |ContainsFilter(field, e)| > |ContainsFilter(field, value)|;
      assert |EndsWithFilter(field, e)| > |EndsWithFilter(field, value)|;
    }
  }

  /** LIKE wildcards inside the value are not escaped: a value can widen its own pattern. */
  lemma WildcardsNotEscaped(field: string, value: string)
    ensures StartsWithFilter(field, "%" + value) == ContainsFilter(field, value)
    ensures EndsWithFilter(field, value + "%") == ContainsFilter(field, value)
  {
    EscapeConcat("%", value);
    EscapeConcat(value, "%");
  }
}
