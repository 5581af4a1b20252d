/**
  Translation of match expressions into syslog-ng filter syntax:
  a leaf is `match("<pattern>" value("<field>") type("<type>"))`, the type clause only when a
  type is set, and a negation is `(not <operand>)`. Nesting in the tree is the only grouping.

  `ParseMatch` reads the syntax back; for expressions whose strings hold no quote character
  it recovers the expression exactly, so the translation loses nothing and is injective.
 */
module Matching {
  import opened Results
  import opened Text
  import opened Model

  function TypeClause(valueType: string): string {
    if valueType == "" then "" else " type(" + (Quote(valueType) + ")")
  }

  /** What every leaf starts with: `match("<pattern>" value("<field>")`. */
  function LeafHead(pattern: string, field: string): string {
    "match(" + (Quote(pattern) + (" value(" + (Quote(field) + ")")))
  }

  /** A regular-expression leaf: `match("<pattern>" value("<field>")[ type("<type>")])`. */
  function Leaf(pattern: string, field: string, valueType: string): string {
    LeafHead(pattern, field) + (TypeClause(valueType) + ")")
  }

  function Translate(e: MatchExpr): (r: string)
    ensures 0 < |r| && r[|r| - 1] == ')'
    ensures r[0] == (if e.Not? then '(' else 'm')
  {
    match e
    case Regexp(pattern, field, valueType) => Leaf(pattern, field, valueType)
    case Not(operand) => "(not " + (Translate(operand) + ")")
  }

  /** The type clause is added just before the leaf's closing parenthesis; nothing else changes. */
  lemma TypeClauseOnlyWhenSet(pattern: string, field: string, valueType: string)
    requires valueType != ""
    ensures var plain := Translate(Regexp(pattern, field, ""));
      Translate(Regexp(pattern, field, valueType))
        == plain[..|plain| - 1] + (" type(" + (Quote(valueType) + "))"))
  {
    var head := LeafHead(pattern, field);
    var plain := Translate(Regexp(pattern, field, ""));
    assert plain == head + ")";
    assert plain[..|plain| - 1] == head;
    var clause := " type(" + (Quote(valueType) + ")");
    assert clause + ")" == " type(" + (Quote(valueType) + "))");
  }

  // ---------------------------------------------------------------------------
  // Reading the syntax back

  predicate QuoteFree(e: MatchExpr) {
    match e
    case Regexp(pattern, field, valueType) =>
      Lacks(pattern, '"') && Lacks(field, '"') && Lacks(valueType, '"')
    case Not(operand) => QuoteFree(operand)
  }

  /** Reads one match expression from the front of `s`; returns it with the text after it. */
  function ParseMatch(s: string): (r: Option<(MatchExpr, string)>)
    ensures r.Some? ==> |r.value.1| < |s|
    decreases |s|
  {
    match Expect(s, "(not ")
    case Some(s1) =>
      var inner :- ParseMatch(s1);
      var s2 :- Expect(inner.1, ")");
      Some((Not(inner.0), s2))
    case None =>
      ParseLeaf(s)
  }

  function ParseLeaf(s: string): (r: Option<(MatchExpr, string)>)
    ensures r.Some? ==> |r.value.1| < |s|
  {
    var s1 :- Expect(s, "match(");
    var pattern :- ParseQuoted(s1);
    var s2 :- Expect(pattern.1, " value(");
    var field :- ParseQuoted(s2);
    var s3 :- Expect(field.1, ")");
    ParseTypeClause(pattern.0, field.0, s3)
  }

  /** Reads the optional ` type("<type>")` clause and the leaf's closing parenthesis. */
  function ParseTypeClause(pattern: string, field: string, s: string): (r: Option<(MatchExpr, string)>)
    ensures r.Some? ==> |r.value.1| < |s|
  {
    match Expect(s, ")")
    case Some(rest) => Some((Regexp(pattern, field, ""), rest))
    case None =>
      var s1 :- Expect(s, " type(");
      var valueType :- ParseQuoted(s1);
      var s2 :- Expect(valueType.1, ")");
      var rest :- Expect(s2, ")");
      if valueType.0 == "" then None else Some((Regexp(pattern, field, valueType.0), rest))
  }

  lemma ParseTypeClauseOf(pattern: string, field: string, valueType: string, rest: string)
    requires Lacks(valueType, '"')
    ensures ParseTypeClause(pattern, field, TypeClause(valueType) + (")" + rest))
      == Some((Regexp(pattern, field, valueType), rest))
  {
    if valueType == "" {
      assert TypeClause(valueType) + (")" + rest) == ")" + rest;
      ExpectOf(")", rest);
    } else {
      ParseTypedClauseOf(pattern, field, valueType, rest);
    }
  }

  lemma ParseTypedClauseOf(pattern: string, field: string, valueType: string, rest: string)
    requires Lacks(valueType, '"') && valueType != ""
    ensures ParseTypeClause(pattern, field, TypeClause(valueType) + (")" + rest))
      == Some((Regexp(pattern, field, valueType), rest))
  {
    var s := TypeClause(valueType) + (")" + rest);
    var after := Quote(valueType) + (")" + (")" + rest));
    assert s == " type(" + after;
    assert Expect(s, ")") == None by {
      assert s[0] == ' ';
    }
    ExpectOf(" type(", after);
    ParseQuotedOf(valueType, ")" + (")" + rest));
    ExpectOf(")", ")" + rest);
    ExpectOf(")", rest);
  }

  lemma ParseLeafOf(pattern: string, field: string, valueType: string, rest: string)
    requires QuoteFree(Regexp(pattern, field, valueType))
    ensures ParseLeaf(Leaf(pattern, field, valueType) + rest)
      == Some((Regexp(pattern, field, valueType), rest))
  {
    var s3 := TypeClause(valueType) + (")" + rest);
    var s2 := Quote(field) + (")" + s3);
    var s1 := Quote(pattern) + (" value(" + s2);
    assert LeafHead(pattern, field) + s3 == "match(" + s1;
    assert Leaf(pattern, field, valueType) + rest == LeafHead(pattern, field) + s3;
    ExpectOf("match(", s1);
    ParseQuotedOf(pattern, " value(" + s2);
    ExpectOf(" value(", s2);
    ParseQuotedOf(field, ")" + s3);
    ExpectOf(")", s3);
    ParseTypeClauseOf(pattern, field, valueType, rest);
  }

  /** Reading a translated quote-free expression gives back the expression and the text after it. */
  lemma {:induction false} ParseMatchOfTranslate(e: MatchExpr, rest: string)
    requires QuoteFree(e)
    ensures ParseMatch(Translate(e) + rest) == Some((e, rest))
  {
    var s := Translate(e) + rest;
    match e
    case Regexp(pattern, field, valueType) =>
      assert s[0] == 'm';
      assert Expect(s, "(not ") == None by {
        assert "(not "[0] == '(';
      }
      ParseLeafOf(pattern, field, valueType, rest);
    case Not(operand) =>
      assert s == "(not " + (Translate(operand) + (")" + rest));
      ExpectOf("(not ", Translate(operand) + (")" + rest));
      ParseMatchOfTranslate(operand, ")" + rest);
      ExpectOf(")", rest);
  }

  /** Different quote-free expressions never translate to the same text. */
  lemma TranslateInjective(e1: MatchExpr, e2: MatchExpr)
    requires QuoteFree(e1) && QuoteFree(e2)
    requires Translate(e1) == Translate(e2)
    ensures e1 == e2
  {
    ParseMatchOfTranslate(e1, "");
    ParseMatchOfTranslate(e2, "");
    assert Translate(e1) + "" == Translate(e2) + "";
  }
}
