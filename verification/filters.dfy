/**
  The filter chain of a flow. Each filter becomes one named block holding one statement:
  `rewrite` blocks for `set` / `unset`, `parser` blocks for the regular-expression parser.
  A block is named after the flow and the filter's explicit ID, or its position when it has none.
 */
module Filters {
  import opened Results
  import opened Text
  import opened Model
  import opened Naming
  import opened Matching

  /** The block keyword an operation is rendered under, and referenced by from the `log` block. */
  function Keyword(op: FilterOp): string {
    match op
    case Set(_, _) => "rewrite"
    case Unset(_, _) => "rewrite"
    case RegexpParser(_, _) => "parser"
  }

  function ConditionClause(condition: Option<MatchExpr>): string {
    match condition
    case None => ""
    case Some(e) => " condition(" + (Translate(e) + ")")
  }

  /** Quoted strings separated by single spaces. */
  function QuotedList(items: seq<string>): (r: string)
    ensures r == "" <==> |items| == 0
    ensures |items| > 0 ==> r[0] == '"'
  {
    if |items| == 0 then ""
    else if |items| == 1 then Quote(items[0])
    else Quote(items[0]) + (" " + QuotedList(items[1..]))
  }

  function UnsetHead(field: string): string {
    "unset(value(" + (Quote(field) + ")")
  }

  /** The statement inside a filter's block, without the terminating `;`. */
  function Statement(op: FilterOp): string {
    match op
    case Set(field, value) =>
      "set(" + (Quote(value) + (" value(" + (Quote(field) + "))")))
    case Unset(field, condition) =>
      UnsetHead(field) + (ConditionClause(condition) + ")")
    case RegexpParser(patterns, prefix) =>
      "regexp-parser(patterns(" + (QuotedList(patterns) + (") prefix(" + (Quote(prefix) + "))")))
  }

  // ---------------------------------------------------------------------------
  // Reading statements back

  /** Reads space-separated quoted strings from the front of `s`, as many as there are. */
  function ParseQuotedList(s: string): (r: Option<(seq<string>, string)>)
    ensures r.Some? ==> |r.value.1| <= |s|
    decreases |s|
  {
    if |s| == 0 || s[0] != '"' then
      Some(([], s))
    else
      var first :- ParseQuoted(s);
      if 0 < |first.1| && first.1[0] == ' ' then
        var others :- ParseQuotedList(first.1[1..]);
        Some(([first.0] + others.0, others.1))
      else
        Some(([first.0], first.1))
  }

  /** Quote-free items read back from their list, whatever follows that is neither a space nor a quote. */
  lemma {:induction false} ParseQuotedListOf(items: seq<string>, rest: string)
    requires forall i :: 0 <= i < |items| ==> Lacks(items[i], '"')
    requires |rest| == 0 || (rest[0] != ' ' && rest[0] != '"')
    ensures ParseQuotedList(QuotedList(items) + rest) == Some((items, rest))
    decreases |items|
  {
    if |items| == 1 {
      assert QuotedList(items) + rest == Quote(items[0]) + rest;
      ParseQuotedOf(items[0], rest);
      assert [items[0]] == items;
    } else if |items| > 1 {
      var tail := QuotedList(items[1..]) + rest;
      var s := QuotedList(items) + rest;
      assert s == Quote(items[0]) + (" " + tail);
      assert s[0] == '"';
      ParseQuotedOf(items[0], " " + tail);
      assert (" " + tail)[1..] == tail;
      ParseQuotedListOf(items[1..], rest);
      assert [items[0]] + items[1..] == items;
    } else {
      assert QuotedList(items) + rest == rest;
      assert items == [];
    }
  }

  /** Reads a filter statement (without its `;`) back into the operation it renders. */
  function ParseStatement(s: string): Option<FilterOp> {
    match Expect(s, "set(")
    case Some(s1) => ParseSet(s1)
    case None =>
      match Expect(s, "unset(value(")
      case Some(s1) => ParseUnset(s1)
      case None =>
        var s1 :- Expect(s, "regexp-parser(patterns(");
        ParseParser(s1)
  }

  /** The rest of `set("<value>" value("<field>"))` after `set(`. */
  function ParseSet(s: string): Option<FilterOp> {
    var value :- ParseQuoted(s);
    var s1 :- Expect(value.1, " value(");
    var field :- ParseQuoted(s1);
    if field.1 == "))" then Some(Set(field.0, value.0)) else None
  }

  /** The rest of `unset(value("<field>")[ condition(<expr>)])` after `unset(value(`. */
  function ParseUnset(s: string): Option<FilterOp> {
    var field :- ParseQuoted(s);
    var s1 :- Expect(field.1, ")");
    if s1 == ")" then Some(Unset(field.0, None))
    else
      var s2 :- Expect(s1, " condition(");
      var condition :- ParseMatch(s2);
      if condition.1 == "))" then Some(Unset(field.0, Some(condition.0))) else None
  }

  /** The rest of `regexp-parser(patterns(<list>) prefix("<prefix>"))` after `regexp-parser(patterns(`. */
  function ParseParser(s: string): Option<FilterOp> {
    var patterns :- ParseQuotedList(s);
    var s1 :- Expect(patterns.1, ") prefix(");
    var prefix :- ParseQuoted(s1);
    if prefix.1 == "))" then Some(RegexpParser(patterns.0, prefix.0)) else None
  }

  /** An operation none of whose strings holds a quote character. */
  predicate QuoteFreeOp(op: FilterOp) {
    match op
    case Set(field, value) => Lacks(field, '"') && Lacks(value, '"')
    case Unset(field, condition) => Lacks(field, '"') && (condition.Some? ==> QuoteFree(condition.value))
    case RegexpParser(patterns, prefix) =>
      (forall i :: 0 <= i < |patterns| ==> Lacks(patterns[i], '"')) && Lacks(prefix, '"')
  }

  lemma SetReadsBack(field: string, value: string)
    requires Lacks(field, '"') && Lacks(value, '"')
    ensures ParseStatement(Statement(Set(field, value))) == Some(Set(field, value))
  {
    var s2 := Quote(field) + "))";
    var s1 := Quote(value) + (" value(" + s2);
    assert Statement(Set(field, value)) == "set(" + s1;
    ExpectOf("set(", s1);
    ParseQuotedOf(value, " value(" + s2);
    ExpectOf(" value(", s2);
    ParseQuotedOf(field, "))");
  }

  lemma UnsetReadsBack(field: string, condition: Option<MatchExpr>)
    requires Lacks(field, '"') && (condition.Some? ==> QuoteFree(condition.value))
    ensures ParseStatement(Statement(Unset(field, condition))) == Some(Unset(field, condition))
  {
    var s1 := Quote(field) + (")" + (ConditionClause(condition) + ")"));
    assert Statement(Unset(field, condition)) == "unset(value(" + s1;
    ParseStatementUnset(s1);
    ParseUnsetOf(field, condition);
  }

  /** A statement starting `unset(value(` is read as an unset, never as a set. */
  lemma ParseStatementUnset(s1: string)
    ensures ParseStatement("unset(value(" + s1) == ParseUnset(s1)
  {
    ExpectMismatch("unset(value(" + s1, "set(", 0);
    ExpectOf("unset(value(", s1);
  }

  lemma ParseUnsetOf(field: string, condition: Option<MatchExpr>)
    requires Lacks(field, '"') && (condition.Some? ==> QuoteFree(condition.value))
    ensures ParseUnset(Quote(field) + (")" + (ConditionClause(condition) + ")"))) == Some(Unset(field, condition))
  {
    var tail := ConditionClause(condition) + ")";
    ParseQuotedOf(field, ")" + tail);
    ExpectOf(")", tail);
    if condition.Some? {
      ParseConditionOf(condition.value);
    }
  }

  lemma ParseConditionOf(e: MatchExpr)
    requires QuoteFree(e)
    ensures var tail := ConditionClause(Some(e)) + ")";
      tail != ")" && Expect(tail, " condition(") == Some(Translate(e) + "))")
      && ParseMatch(Translate(e) + "))") == Some((e, "))"))
  {
    var tail := ConditionClause(Some(e)) + ")";
    assert tail == " condition(" + (Translate(e) + "))");
    ExpectOf(" condition(", Translate(e) + "))");
    ParseMatchOfTranslate(e, "))");
  }

  lemma ParserReadsBack(patterns: seq<string>, prefix: string)
    requires (forall i :: 0 <= i < |patterns| ==> Lacks(patterns[i], '"')) && Lacks(prefix, '"')
    ensures ParseStatement(Statement(RegexpParser(patterns, prefix))) == Some(RegexpParser(patterns, prefix))
  {
    var s := Statement(RegexpParser(patterns, prefix));
    var s2 := Quote(prefix) + "))";
    var s1 := QuotedList(patterns) + (") prefix(" + s2);
    assert s == "regexp-parser(patterns(" + s1;
    ExpectMismatch(s, "set(", 0);
    ExpectMismatch(s, "unset(value(", 0);
    ExpectOf("regexp-parser(patterns(", s1);
    ParseQuotedListOf(patterns, ") prefix(" + s2);
    ExpectOf(") prefix(", s2);
    ParseQuotedOf(prefix, "))");
  }

  /** Filter statements lose nothing: a quote-free operation reads back from its statement. */
  lemma StatementReadsBack(op: FilterOp)
    requires QuoteFreeOp(op)
    ensures ParseStatement(Statement(op)) == Some(op)
  {
    match op
    case Set(field, value) => SetReadsBack(field, value);
    case Unset(field, condition) => UnsetReadsBack(field, condition);
    case RegexpParser(patterns, prefix) => ParserReadsBack(patterns, prefix);
  }

  /** Different quote-free operations never render the same statement. */
  lemma StatementInjective(op1: FilterOp, op2: FilterOp)
    requires QuoteFreeOp(op1) && QuoteFreeOp(op2)
    requires Statement(op1) == Statement(op2)
    ensures op1 == op2
  {
    StatementReadsBack(op1);
    StatementReadsBack(op2);
  }

  function FilterBlock(flowNamespace: string, flowName: string, index: nat, f: Filter): NamedBlock {
    NamedBlock(Keyword(f.op), FilterId(flowNamespace, flowName, index, f.id), [Statement(f.op) + ";"])
  }

  /**
    The blocks of a chain whose first filter sits at position `start`: one block per filter,
    in declaration order, each named by its own position.
   */
  function ChainBlocks(flowNamespace: string, flowName: string, start: nat, filters: seq<Filter>): (r: seq<NamedBlock>)
    ensures |r| == |filters|
    ensures forall i {:trigger r[i]} :: 0 <= i < |filters| ==> r[i] == FilterBlock(flowNamespace, flowName, start + i, filters[i])
    decreases |filters|
  {
    if |filters| == 0 then
      []
    else
      [FilterBlock(flowNamespace, flowName, start, filters[0])]
        + ChainBlocks(flowNamespace, flowName, start + 1, filters[1..])
  }

  /** The unset condition is added just before the statement's closing parenthesis; nothing else changes. */
  lemma ConditionOnlyWhenSet(field: string, condition: MatchExpr)
    ensures var plain := Statement(Unset(field, None));
      Statement(Unset(field, Some(condition)))
        == plain[..|plain| - 1] + (" condition(" + (Translate(condition) + "))"))
  {
    var head := UnsetHead(field);
    var plain := Statement(Unset(field, None));
    assert plain == head + ")";
    assert plain[..|plain| - 1] == head;
    var clause := " condition(" + (Translate(condition) + ")");
    assert Statement(Unset(field, Some(condition))) == head + (clause + ")");
    assert clause + ")" == " condition(" + (Translate(condition) + "))");
  }

  /** Explicit filter IDs that keep the chain's block names apart. */
  predicate UnambiguousIds(filters: seq<Filter>) {
    && (forall i :: 0 <= i < |filters| ==> IsNonNumericId(filters[i].id))
    && (forall i, j :: 0 <= i < j < |filters| && filters[i].id != "" ==> filters[i].id != filters[j].id)
  }

  /** With unambiguous IDs, no two blocks of a chain share a name. */
  lemma ChainIdsDistinct(flowNamespace: string, flowName: string, filters: seq<Filter>)
    requires UnambiguousIds(filters)
    ensures DistinctIds(ChainBlocks(flowNamespace, flowName, 0, filters))
  {
    var bs := ChainBlocks(flowNamespace, flowName, 0, filters);
    forall i, j | 0 <= i < j < |bs|
      ensures bs[i].id != bs[j].id
    {
      FilterIdsDistinct(flowNamespace, flowName, i, filters[i].id, j, filters[j].id);
    }
  }
}
