/**
  The expected documents of the renderer's table-test scenarios, line by line, and the steps
  that show the model renders each of them: the shapes of rendered lines, cut where the
  expected lines are written in pieces, and the assembly of preamble, sections and flows.
 */
module ScenarioText {
  import opened Results
  import opened Text
  import opened Model
  import opened Naming
  import opened Matching
  import opened Filters
  import opened Destinations
  import opened Preamble
  import opened Flows
  import opened Config

  /** The margin of a line nested `depth` levels deep: four spaces per level. */
  function Margin(depth: nat): (r: string)
    ensures |r| == 4 * depth
  {
    if depth == 0 then "" else Indentation + Margin(depth - 1)
  }

  /** A line nested `depth` levels deep; an empty line stays empty. */
  function Nested(depth: nat, line: string): (r: string)
    ensures line != "" ==> |r| == 4 * depth + |line| && r[4 * depth..] == line
    ensures line == "" ==> r == ""
  {
    if line == "" then line else Margin(depth) + line
  }

  lemma Assoc<T>(a: seq<T>, b: seq<T>, c: seq<T>)
    ensures a + (b + c) == (a + b) + c
  {
  }

  lemma Port601()
    ensures IntToString(601) == "601"
  {
    assert NatToString(6) == "6";
    assert NatToString(60) == "60";
  }

  // ---------------------------------------------------------------------------
  // The preamble shared by every scenario

  const ExpectedHeader := ["@version: 3.37", "", "@include \"scl.conf\"", ""]

  const ExpectedSource := [
    "source \"main_input\" {",
    Nested(1, "channel {"),
    Nested(2, "source {"),
    Nested(3, "network(flags(\"no-parse\") port(601) transport(\"tcp\"));"),
    Nested(2, "};"),
    Nested(2, "parser {"),
    Nested(3, "json-parser(prefix(\"json.\"));"),
    Nested(2, "};"),
    Nested(1, "};"),
    "};"]

  lemma NetworkLine601()
    ensures NetworkLine(601) == "network(flags(\"no-parse\") port(601) transport(\"tcp\"));"
  {
    Port601();
    assert NetworkHead == "network(flags(\"no-parse\") ";
    assert NumericCall("port", 601) == "port(601)";
    assert NetworkTail == " transport(\"tcp\"));";
    NetworkJoin();
  }

  lemma NetworkJoin()
    ensures "network(flags(\"no-parse\") " + ("port(601)" + " transport(\"tcp\"));")
      == "network(flags(\"no-parse\") port(601) transport(\"tcp\"));"
  {
  }

  /** A block with a one-line body inside another block, before indentation. */
  lemma InnerBlockOfOne(kind: string, header: string, line: string)
    requires kind + " {" == header && line != ""
    ensures InnerBlock(kind, [line]) == [header, Nested(1, line), "};"]
  {
    NestedOnce(line);
  }

  /** Indenting a line at some depth nests it one level deeper. */
  lemma NestedDeeper(depth: nat, line: string)
    requires line != ""
    ensures IndentLine(Nested(depth, line)) == Nested(depth + 1, line)
  {
    var m := Margin(depth);
    assert Nested(depth, line) == m + line;
    assert Nested(depth + 1, line) == (Indentation + m) + line;
    Assoc(Indentation, m, line);
  }

  lemma IndentEight(a: string, b: string, c: string, d: string, e: string, f: string, g: string, h: string)
    ensures Indent([a, b, c, d, e, f, g, h])
      == [IndentLine(a), IndentLine(b), IndentLine(c), IndentLine(d), IndentLine(e), IndentLine(f), IndentLine(g), IndentLine(h)]
  {
  }

  /**
    The channel of the source: an outer block holding two blocks of one line each, with the
    block keywords and headers left as parameters.
   */
  lemma ChannelShape(outer: string, first: string, second: string, outerHeader: string, firstHeader: string,
                     secondHeader: string, close: string, line1: string, line2: string)
    requires outer + " {" == outerHeader && first + " {" == firstHeader && second + " {" == secondHeader
    requires close == "};" && line1 != "" && line2 != ""
    ensures InnerBlock(outer, InnerBlock(first, [line1]) + InnerBlock(second, [line2]))
      == [outerHeader, Nested(1, firstHeader), Nested(2, line1), Nested(1, close),
          Nested(1, secondHeader), Nested(2, line2), Nested(1, close), close]
  {
    var a, b := InnerBlock(first, [line1]), InnerBlock(second, [line2]);
    ChannelBody(first, second, firstHeader, secondHeader, close, line1, line2);
    var inner := [Nested(1, firstHeader), Nested(2, line1), Nested(1, close),
                  Nested(1, secondHeader), Nested(2, line2), Nested(1, close)];
    InnerBlockAround(outer, outerHeader, a + b, inner);
  }

  /** The two inner blocks of the channel, indented inside it. */
  lemma ChannelBody(first: string, second: string, firstHeader: string, secondHeader: string,
                    close: string, line1: string, line2: string)
    requires first + " {" == firstHeader && second + " {" == secondHeader
    requires close == "};" && line1 != "" && line2 != ""
    ensures Indent(InnerBlock(first, [line1]) + InnerBlock(second, [line2]))
      == [Nested(1, firstHeader), Nested(2, line1), Nested(1, close),
          Nested(1, secondHeader), Nested(2, line2), Nested(1, close)]
  {
    var a, b := InnerBlock(first, [line1]), InnerBlock(second, [line2]);
    InnerBlockOfOne(first, firstHeader, line1);
    InnerBlockOfOne(second, secondHeader, line2);
    IndentInnerOfOne(firstHeader, line1, close);
    IndentInnerOfOne(secondHeader, line2, close);
    IndentConcat(a, b);
  }

  lemma InnerBlockAround(kind: string, header: string, body: seq<string>, inner: seq<string>)
    requires kind + " {" == header && Indent(body) == inner
    ensures InnerBlock(kind, body) == [header] + inner + ["};"]
  {
  }

  /** An inner block of one line, indented once more. */
  lemma IndentInnerOfOne(header: string, line: string, close: string)
    requires header != "" && line != "" && close != ""
    ensures Indent([header, Nested(1, line), close]) == [Nested(1, header), Nested(2, line), Nested(1, close)]
  {
    NestedOnce(header);
    NestedDeeper(1, line);
    NestedOnce(close);
  }

  /** The named source block around that channel. */
  lemma SourceShape(outer: string, first: string, second: string, outerHeader: string, firstHeader: string,
                    secondHeader: string, close: string, line1: string, line2: string, header: string)
    requires outer + " {" == outerHeader && first + " {" == firstHeader && second + " {" == secondHeader
    requires close == "};" && line1 != "" && line2 != ""
    requires "source" + " " + Quote(SourceName) + " {" == header
    ensures BlockLines(NamedBlock("source", SourceName, InnerBlock(outer, InnerBlock(first, [line1]) + InnerBlock(second, [line2]))))
      == [header, Nested(1, outerHeader), Nested(2, firstHeader), Nested(3, line1), Nested(2, close),
          Nested(2, secondHeader), Nested(3, line2), Nested(2, close), Nested(1, close), close]
  {
    var b := NamedBlock("source", SourceName, InnerBlock(outer, InnerBlock(first, [line1]) + InnerBlock(second, [line2])));
    var inner := [Nested(1, outerHeader), Nested(2, firstHeader), Nested(3, line1), Nested(2, close),
                  Nested(2, secondHeader), Nested(3, line2), Nested(2, close), Nested(1, close)];
    ChannelShape(outer, first, second, outerHeader, firstHeader, secondHeader, close, line1, line2);
    IndentChannel(outerHeader, firstHeader, secondHeader, close, line1, line2);
    NamedBlockAround(b, header, inner);
    CloseAfterEight(header, inner[0], inner[1], inner[2], inner[3], inner[4], inner[5], inner[6], inner[7]);
  }

  lemma NamedBlockAround(b: NamedBlock, header: string, inner: seq<string>)
    requires BlockHeader(b) == header && Indent(b.body) == inner
    ensures BlockLines(b) == [header] + inner + ["};"]
  {
  }

  lemma CloseAfterEight(h: string, a: string, b: string, c: string, d: string, e: string, f: string, g: string, i: string)
    ensures [h] + [a, b, c, d, e, f, g, i] + ["};"] == [h, a, b, c, d, e, f, g, i, "};"]
  {
  }

  lemma IndentChannel(outerHeader: string, firstHeader: string, secondHeader: string, close: string, line1: string, line2: string)
    requires outerHeader != "" && firstHeader != "" && secondHeader != "" && close != "" && line1 != "" && line2 != ""
    ensures Indent([outerHeader, Nested(1, firstHeader), Nested(2, line1), Nested(1, close),
                    Nested(1, secondHeader), Nested(2, line2), Nested(1, close), close])
      == [Nested(1, outerHeader), Nested(2, firstHeader), Nested(3, line1), Nested(2, close),
          Nested(2, secondHeader), Nested(3, line2), Nested(2, close), Nested(1, close)]
  {
    IndentEight(outerHeader, Nested(1, firstHeader), Nested(2, line1), Nested(1, close),
      Nested(1, secondHeader), Nested(2, line2), Nested(1, close), close);
    NestedDeeper(0, outerHeader);
    NestedDeeper(1, firstHeader);
    NestedDeeper(2, line1);
    NestedDeeper(1, close);
    NestedDeeper(1, secondHeader);
    NestedDeeper(2, line2);
    NestedDeeper(0, close);
  }

  lemma SourceHeader()
    ensures "source" + " " + Quote(SourceName) + " {" == "source \"main_input\" {"
  {
  }

  lemma SourceKeywords()
    ensures "channel" + " {" == "channel {" && "source" + " {" == "source {" && "parser" + " {" == "parser {"
  {
  }

  lemma SourceText()
    ensures BlockLines(SourceBlock(601)) == ExpectedSource
  {
    NetworkLine601();
    assert JsonParserLine == "json-parser(prefix(\"json.\"));";
    SourceHeader();
    SourceKeywords();
    SourceShape("channel", "source", "parser", "channel {", "source {", "parser {", "};",
      NetworkLine(601), JsonParserLine, "source \"main_input\" {");
  }

  /** The preamble without options, listening on port 601. */
  lemma PreambleOn601()
    ensures PreambleLines(None, 601) == ExpectedHeader + ExpectedSource
  {
    HeaderText();
    SourceText();
  }

  // ---------------------------------------------------------------------------
  // Shapes of rendered lines, cut at the points where the expected lines are written in pieces

  /** A block with a one-line body: header, the line indented once, closing brace. */
  lemma BlockOfOne(b: NamedBlock)
    requires |b.body| == 1 && b.body[0] != ""
    ensures BlockLines(b) == [b.kind + " " + (Quote(b.id) + " {"), Nested(1, b.body[0]), "};"]
  {
    Assoc(b.kind + " ", Quote(b.id), " {");
    NestedOnce(b.body[0]);
  }

  /** A reference line, cut after the keyword's parenthesis. */
  lemma RefLineShape(b: NamedBlock)
    ensures RefLine(b) == b.kind + "(" + (Quote(b.id) + ");")
  {
    Assoc(b.kind + "(", Quote(b.id), ");");
  }

  /** A leaf line: `match("<pattern>" value(`, then `"<field>")`, then the type clause and the end. */
  lemma LeafLineShape(pattern: string, field: string, valueType: string)
    ensures Translate(Regexp(pattern, field, valueType)) + ";"
      == "match(" + Quote(pattern) + " value(" + (Quote(field) + ")") + (TypeClause(valueType) + ");")
  {
    var qp, qf, t := Quote(pattern), Quote(field), TypeClause(valueType);
    Assoc(" value(", qf, ")");
    Assoc(qp, " value(", qf + ")");
    Assoc("match(", qp + " value(", qf + ")");
    Assoc("match(", qp, " value(");
    Assoc(t, ")", ";");
    assert ")" + ";" == ");";
    Assoc("match(" + qp + " value(" + (qf + ")"), t + ")", ";");
    Assoc("match(" + qp + " value(", qf + ")", t + ")");
  }

  // ---------------------------------------------------------------------------
  // The `log` block of a flow in namespace `default`

  const NamespaceMatchLine := "match(\"default\" value(" + "\"json.kubernetes.namespace_name\")" + " type(\"string\"));"

  /** The lines every such `log` block starts with, indented as inside the block. */
  const ExpectedLogHeader := [
    Nested(1, "source(\"main_input\");"),
    Nested(1, "filter {"),
    Nested(2, NamespaceMatchLine),
    Nested(1, "};")]

  lemma NamespaceMatchDefault()
    ensures Translate(Regexp("default", NamespaceField, "string")) + ";" == NamespaceMatchLine
  {
    LeafLineShape("default", NamespaceField, "string");
    DefaultPatternHead();
    NamespaceFieldQuoted();
    StringTypeEnd();
  }

  lemma DefaultPatternHead()
    ensures "match(" + Quote("default") + " value(" == "match(\"default\" value("
  {
  }

  lemma NamespaceFieldQuoted()
    ensures Quote(NamespaceField) + ")" == "\"json.kubernetes.namespace_name\")"
  {
    QuoteSplit("json.kubernetes.", "namespace_name", ")");
  }

  lemma StringTypeEnd()
    ensures TypeClause("string") + ");" == " type(\"string\"));"
  {
  }

  lemma SourceRef()
    ensures "source(" + (Quote(SourceName) + ");") == "source(\"main_input\");"
  {
  }

  lemma LogHeaderDefault()
    ensures Indent(LogHeader("default")) == ExpectedLogHeader
  {
    NamespaceMatchDefault();
    SourceRef();
    var m := Translate(Regexp("default", NamespaceField, "string"));
    Assoc(Indentation, m, ";");
    NestedOnce(NamespaceMatchLine);
    var header := ["source(\"main_input\");", "filter {", Nested(1, NamespaceMatchLine), "};"];
    assert LogHeader("default") == header;
    NestedOnce(header[0]);
    NestedOnce(header[1]);
    NestedDeeper(1, NamespaceMatchLine);
    NestedOnce(header[3]);
  }

  lemma NestedOnce(line: string)
    requires line != ""
    ensures Nested(1, line) == IndentLine(line)
  {
    assert Margin(1) == Indentation;
  }

  lemma IndentConcat(a: seq<string>, b: seq<string>)
    ensures Indent(a + b) == Indent(a) + Indent(b)
  {
    forall i | 0 <= i < |a + b|
      ensures Indent(a + b)[i] == (Indent(a) + Indent(b))[i]
    {
      if i < |a| {
        assert (a + b)[i] == a[i];
      } else {
        assert (a + b)[i] == b[i - |a|];
      }
    }
  }

  /** A `log` block whose references after the header are `refs`. */
  lemma LogLinesOf(f: Flow, refs: seq<string>)
    requires RefLines(Definitions(f)) + DestinationRefs(f.namespace, f.localOutputRefs) == refs
    ensures LogLines(f) == ["log {"] + Indent(LogHeader(f.namespace)) + Indent(refs) + ["};"]
  {
    var header := LogHeader(f.namespace);
    assert LogBody(f) == header + refs;
    IndentConcat(header, refs);
    Assoc(["log {"], Indent(header), Indent(refs));
  }

  /** A `log` block that references exactly one block or destination. */
  lemma LogLines1(f: Flow, r0: string)
    requires RefLines(Definitions(f)) + DestinationRefs(f.namespace, f.localOutputRefs) == [r0]
    requires r0 != ""
    ensures LogLines(f) == ["log {"] + Indent(LogHeader(f.namespace)) + [Nested(1, r0), "};"]
  {
    LogLinesOf(f, [r0]);
    NestedOnce(r0);
    assert Indent([r0]) == [Nested(1, r0)];
    Assoc(["log {"] + Indent(LogHeader(f.namespace)), [Nested(1, r0)], ["};"]);
  }

  /** A `log` block that references exactly three blocks or destinations. */
  lemma LogLines3(f: Flow, r0: string, r1: string, r2: string)
    requires RefLines(Definitions(f)) + DestinationRefs(f.namespace, f.localOutputRefs) == [r0, r1, r2]
    requires r0 != "" && r1 != "" && r2 != ""
    ensures LogLines(f) == ["log {"] + Indent(LogHeader(f.namespace)) + [Nested(1, r0), Nested(1, r1), Nested(1, r2), "};"]
  {
    LogLinesOf(f, [r0, r1, r2]);
    IndentThree(r0, r1, r2);
    CloseAfterThree(["log {"] + Indent(LogHeader(f.namespace)), Nested(1, r0), Nested(1, r1), Nested(1, r2));
  }

  lemma CloseAfterThree(front: seq<string>, a: string, b: string, c: string)
    ensures front + [a, b, c] + ["};"] == front + [a, b, c, "};"]
  {
    Assoc(front, [a, b, c], ["};"]);
  }

  lemma IndentThree(r0: string, r1: string, r2: string)
    requires r0 != "" && r1 != "" && r2 != ""
    ensures Indent([r0, r1, r2]) == [Nested(1, r0), Nested(1, r1), Nested(1, r2)]
  {
    NestedOnce(r0);
    NestedOnce(r1);
    NestedOnce(r2);
  }

  // ---------------------------------------------------------------------------
  // Names in flow `test-flow` of namespace `default`; they are written with the flow's common
  // prefix as one piece

  /** A quoted name with something after it, cut after a leading part of the name. */
  lemma QuoteSplit(front: string, back: string, after: string)
    ensures Quote(front + back) + after == "\"" + front + (back + ("\"" + after))
  {
    Assoc(front, back, ['"']);
    Assoc(['"'], front + back, ['"']);
    Assoc(['"'] + (front + back), ['"'], after);
  }

  lemma QuotedFlowPrefix()
    ensures "\"" + FlowPrefix("default", "test-flow") == "\"flow_default_test-flow_"
  {
  }

  /** A quoted block name of flow `test-flow`, split after the prefix, with `after` following it. */
  lemma QuotedFlowId(key: string, after: string)
    ensures Quote(FlowPrefix("default", "test-flow") + key) + after == "\"flow_default_test-flow_" + (key + ("\"" + after))
  {
    QuoteSplit(FlowPrefix("default", "test-flow"), key, after);
    QuotedFlowPrefix();
  }

  lemma MatchIdIsPrefixed()
    ensures FlowMatchId("default", "test-flow") == FlowPrefix("default", "test-flow") + "match"
  {
  }

  lemma FilterIdIsPrefixed(index: nat, id: string)
    ensures FilterId("default", "test-flow", index, id) == FlowPrefix("default", "test-flow") + ("filters_" + FilterKey(index, id))
  {
    Assoc(FlowPrefix("default", "test-flow"), "filters_", FilterKey(index, id));
  }

  lemma FilterKeyZero()
    ensures FilterKey(0, "") == "0"
  {
    assert NatToString(0) == "0";
  }

  /** The header of a block of flow `test-flow`, named by the flow's prefix and `key`. */
  lemma FlowBlockHeader(kind: string, key: string, body: seq<string>)
    ensures var b := NamedBlock(kind, FlowPrefix("default", "test-flow") + key, body);
      b.kind + " " + (Quote(b.id) + " {") == kind + " " + "\"flow_default_test-flow_" + (key + "\" {")
  {
    QuotedFlowId(key, " {");
    assert "\"" + " {" == "\" {";
    Assoc(kind + " ", "\"flow_default_test-flow_", key + "\" {");
  }

  /** The reference to a block of flow `test-flow`, named by the flow's prefix and `key`. */
  lemma FlowBlockRef(kind: string, key: string, body: seq<string>)
    ensures RefLine(NamedBlock(kind, FlowPrefix("default", "test-flow") + key, body))
      == kind + "(" + "\"flow_default_test-flow_" + (key + "\");")
  {
    RefLineShape(NamedBlock(kind, FlowPrefix("default", "test-flow") + key, body));
    QuotedFlowId(key, ");");
    assert "\"" + ");" == "\");";
    Assoc(kind + "(", "\"flow_default_test-flow_", key + "\");");
  }

  // ---------------------------------------------------------------------------
  // "single flow with single output": output `test-syslog-out` in namespace `default`

  lemma SyslogOutId()
    ensures OutputId("default", "test-syslog-out") == "output_default_test-syslog-out"
  {
  }

  lemma QuotedSyslogOutId()
    ensures Quote("output_default_test-syslog-out") == "\"output_default_test-syslog-out\""
  {
  }

  lemma SyslogOutHeader(body: seq<string>)
    ensures BlockHeader(NamedBlock("destination", OutputId("default", "test-syslog-out"), body))
      == "destination " + "\"output_default_test-syslog-out\" {"
  {
    SyslogOutId();
    QuotedSyslogOutId();
    assert "destination" + " " == "destination ";
    assert "\"output_default_test-syslog-out\"" + " {" == "\"output_default_test-syslog-out\" {";
  }

  /** A syslog statement without TLS, cut after the transport clause and around the quoted ID. */
  lemma PlainSyslogShape(o: Output, store: SecretStore)
    requires o.kind.Syslog? && o.kind.caFile.None?
    ensures DriverStatement(o, store)
      == Ok(("syslog(" + (Quote(o.kind.host) + TransportClause(o.kind.transport)))
        + " persist_name(" + (Quote(OutputId(o.namespace, o.name)) + "));"))
  {
    var head := "syslog(" + (Quote(o.kind.host) + TransportClause(o.kind.transport));
    var q := Quote(OutputId(o.namespace, o.name));
    var tail := PersistNameClause(OutputId(o.namespace, o.name)) + ");";
    Assoc(Quote(o.kind.host), TransportClause(o.kind.transport), tail);
    Assoc("syslog(", Quote(o.kind.host) + TransportClause(o.kind.transport), tail);
    Assoc(" persist_name(", q + ")", ");");
    Assoc(q, ")", ");");
    assert ")" + ");" == "));";
    Assoc(head, " persist_name(", q + "));");
    assert DriverStatement(o, store) == Ok("syslog(" + (Quote(o.kind.host) + (TransportClause(o.kind.transport) + (TlsClause(None) + tail))));
    assert TlsClause(None) == "" && "" + tail == tail;
    assert DriverStatement(o, store) == Ok("syslog(" + (Quote(o.kind.host) + (TransportClause(o.kind.transport) + tail)));
    assert DriverStatement(o, store) == Ok(head + tail);
  }

  lemma SyslogOutStatement(store: SecretStore)
    ensures DriverStatement(Output("default", "test-syslog-out", Syslog("test.local", "tcp", None)), store)
      == Ok("syslog(\"test.local\" transport(\"tcp\")" + " persist_name(" + "\"output_default_test-syslog-out\"));")
  {
    PlainSyslogShape(Output("default", "test-syslog-out", Syslog("test.local", "tcp", None)), store);
    SyslogOutId();
    QuotedSyslogOutId();
    TestLocalHead();
    SyslogOutTail();
  }

  lemma TestLocalHead()
    ensures "syslog(" + (Quote("test.local") + TransportClause("tcp")) == "syslog(\"test.local\" transport(\"tcp\")"
  {
    QuotedTestLocal();
    TcpTransport();
    TestLocalJoin();
  }

  lemma QuotedTestLocal()
    ensures Quote("test.local") == "\"test.local\""
  {
  }

  lemma TcpTransport()
    ensures TransportClause("tcp") == " transport(\"tcp\")"
  {
  }

  lemma TestLocalJoin()
    ensures "syslog(" + ("\"test.local\"" + " transport(\"tcp\")") == "syslog(\"test.local\" transport(\"tcp\")"
  {
  }

  lemma SyslogOutTail()
    ensures "\"output_default_test-syslog-out\"" + "));" == "\"output_default_test-syslog-out\"));"
  {
  }

  const SyslogOut := Output("default", "test-syslog-out", Syslog("test.local", "tcp", None))

  const ExpectedSyslogOut := [
    "destination " + "\"output_default_test-syslog-out\" {",
    Nested(1, "syslog(\"test.local\" transport(\"tcp\")" + " persist_name(" + "\"output_default_test-syslog-out\"));"),
    "};"]

  lemma SyslogOutLines(store: SecretStore)
    ensures DestinationBlocks([SyslogOut], store).Ok?
    ensures BlocksLines(DestinationBlocks([SyslogOut], store).value) == ExpectedSyslogOut
  {
    SyslogOutStatement(store);
    var b := DestinationBlock(SyslogOut, store).value;
    assert DestinationBlocks([SyslogOut], store).value == [b];
    BlockOfOne(b);
    SyslogOutHeader(b.body);
    Assoc("destination ", Quote(OutputId("default", "test-syslog-out")), " {");
    assert BlocksLines([b]) == BlockLines(b);
  }

  const NginxFlow := Flow("default", "test-flow", Some(Regexp("nginx", "kubernetes.labels.app", "")),
    [Filter("", Set("cluster", "test-cluster"))], ["test-syslog-out"])

  const NginxMatchLine := "match(\"nginx\" value(" + "\"kubernetes.labels.app\")" + ");"
  const SetClusterLine := "set(\"test-cluster\"" + " value(\"cluster\"));"

  lemma NginxMatch()
    ensures Translate(Regexp("nginx", "kubernetes.labels.app", "")) + ";" == NginxMatchLine
  {
    LeafLineShape("nginx", "kubernetes.labels.app", "");
    assert "match(" + Quote("nginx") + " value(" == "match(\"nginx\" value(";
    assert Quote("kubernetes.labels.app") + ")" == "\"kubernetes.labels.app\")";
    assert TypeClause("") + ");" == ");";
  }

  lemma SetCluster()
    ensures Statement(Set("cluster", "test-cluster")) + ";" == SetClusterLine
  {
    var value, rest := Quote("test-cluster"), " value(" + (Quote("cluster") + "))");
    assert "set(" + value == "set(\"test-cluster\"";
    assert rest + ";" == " value(\"cluster\"));";
    Assoc("set(", value, rest);
    Assoc("set(" + value, rest, ";");
  }

  lemma NginxDefinitions()
    ensures Definitions(NginxFlow) == [
      NamedBlock("filter", FlowPrefix("default", "test-flow") + "match", [NginxMatchLine]),
      NamedBlock("rewrite", FlowPrefix("default", "test-flow") + "filters_0", [SetClusterLine])]
  {
    NginxMatch();
    SetCluster();
    MatchIdIsPrefixed();
    FilterIdIsPrefixed(0, "");
    FilterKeyZero();
    assert "filters_" + "0" == "filters_0";
  }

  const ExpectedNginxBlocks := [
    "filter " + "\"flow_default_test-flow_" + "match\" {",
    Nested(1, NginxMatchLine),
    "};",
    "rewrite " + "\"flow_default_test-flow_" + "filters_0\" {",
    Nested(1, SetClusterLine),
    "};"]

  const NginxRefLines := [
    "filter(" + "\"flow_default_test-flow_" + "match\");",
    "rewrite(" + "\"flow_default_test-flow_" + "filters_0\");",
    "destination(" + "\"output_default_test-syslog-out\");"]

  const ExpectedNginxLog := ["log {"] + ExpectedLogHeader + [
    Nested(1, NginxRefLines[0]),
    Nested(1, NginxRefLines[1]),
    Nested(1, NginxRefLines[2]),
    "};"]

  lemma NginxBlocks()
    ensures BlocksLines(Definitions(NginxFlow)) == ExpectedNginxBlocks
  {
    NginxDefinitions();
    var defs := Definitions(NginxFlow);
    BlockOfOne(defs[0]);
    BlockOfOne(defs[1]);
    FlowBlockHeader("filter", "match", [NginxMatchLine]);
    FlowBlockHeader("rewrite", "filters_0", [SetClusterLine]);
    assert "filter" + " " == "filter " && "match" + "\" {" == "match\" {";
    assert "rewrite" + " " == "rewrite " && "filters_0" + "\" {" == "filters_0\" {";
    assert BlocksLines(defs) == BlockLines(defs[0]) + BlockLines(defs[1]) by {
      assert BlocksLines(defs[1..]) == BlockLines(defs[1]) + BlocksLines(defs[2..]);
    }
  }

  lemma NginxRefs()
    ensures RefLines(Definitions(NginxFlow)) + DestinationRefs("default", ["test-syslog-out"]) == NginxRefLines
  {
    NginxDefinitions();
    var defs := Definitions(NginxFlow);
    FlowBlockRef("filter", "match", [NginxMatchLine]);
    FlowBlockRef("rewrite", "filters_0", [SetClusterLine]);
    assert "filter" + "(" == "filter(" && "match" + "\");" == "match\");";
    assert "rewrite" + "(" == "rewrite(" && "filters_0" + "\");" == "filters_0\");";
    SyslogOutId();
    QuotedSyslogOutId();
    assert "\"output_default_test-syslog-out\"" + ");" == "\"output_default_test-syslog-out\");";
  }

  lemma NginxLog()
    ensures LogLines(NginxFlow) == ExpectedNginxLog
  {
    NginxRefs();
    LogLines3(NginxFlow, NginxRefLines[0], NginxRefLines[1], NginxRefLines[2]);
    LogHeaderDefault();
  }

  lemma NginxFlowLines()
    ensures FlowsLines([NginxFlow]) == ExpectedNginxBlocks + ExpectedNginxLog
  {
    NginxBlocks();
    NginxLog();
    assert FlowsLines([NginxFlow]) == FlowLines(NginxFlow);
  }

  const NoSecrets := SecretStore(map[], "")

  /** config_test.go, "single flow with single output". */
  const SingleFlowInput := Input(Logging("config-test", "test", Some(SyslogNGSpec(None))),
    [SyslogOut], [NginxFlow], 601, NoSecrets)

  const SingleFlowLines := ExpectedHeader + ExpectedSource
    + ([""] + ExpectedSyslogOut)
    + ([""] + ExpectedNginxBlocks + ExpectedNginxLog)

  lemma SingleFlowDocument()
    ensures DocumentLines(SingleFlowInput) == Ok(SingleFlowLines)
  {
    SyslogOutLines(NoSecrets);
    NginxFlowLines();
    PreambleOn601();
    NginxRefsResolve();
    SectionsDocument(SingleFlowInput, ExpectedHeader + ExpectedSource, ExpectedSyslogOut, ExpectedNginxBlocks + ExpectedNginxLog);
    TwoSections(ExpectedHeader + ExpectedSource, ExpectedSyslogOut, ExpectedNginxBlocks, ExpectedNginxLog);
  }

  /** Both sections present: each follows its own blank line. */
  lemma TwoSections(preamble: seq<string>, destinations: seq<string>, blocks: seq<string>, logs: seq<string>)
    requires destinations != [] && blocks + logs != []
    ensures preamble + (Section(destinations) + Section(blocks + logs))
      == preamble + ([""] + destinations) + ([""] + blocks + logs)
  {
    Assoc([""], blocks, logs);
    Assoc(preamble, [""] + destinations, [""] + (blocks + logs));
  }

  /** A document with no options, given the lines of its preamble, destinations and flows. */
  lemma SectionsDocument(input: Input, preamble: seq<string>, destinations: seq<string>, flows: seq<string>)
    requires input.logging.syslogNGSpec == Some(SyslogNGSpec(None)) && PreambleLines(None, input.sourcePort) == preamble
    requires DestinationBlocks(input.outputs, input.secretStore).Ok?
    requires BlocksLines(DestinationBlocks(input.outputs, input.secretStore).value) == destinations
    requires FlowsLines(input.flows) == flows
    requires AllRefsResolve(input.outputs, input.flows)
    ensures DocumentLines(input) == Ok(preamble + (Section(destinations) + Section(flows)))
  {
  }

  /** The single flow's one destination reference names the single output. */
  lemma NginxRefsResolve()
    ensures AllRefsResolve([SyslogOut], [NginxFlow])
  {
    assert [SyslogOut][0].namespace == NginxFlow.namespace && [SyslogOut][0].name == NginxFlow.localOutputRefs[0];
  }

  // ---------------------------------------------------------------------------
  // "empty input" and "no syslog-ng spec": both fail and write nothing

  // ---------------------------------------------------------------------------
  // "global options": stats_level(3) and stats_freq(0), no outputs, no flows

  const ExpectedOptions := ["options {", Nested(1, "stats_level(3);"), Nested(1, "stats_freq(10);"), "};", ""]

  lemma StatsLines()
    ensures NumericCall("stats_level", 3) + ";" == "stats_level(3);"
    ensures NumericCall("stats_freq", StatsFreq(0)) + ";" == "stats_freq(10);"
  {
    assert IntToString(3) == "3";
    assert NatToString(1) == "1";
    assert IntToString(10) == "10";
  }

  lemma OptionsText()
    ensures OptionsLines(Some(GlobalOptions(Some(3), Some(0)))) == ExpectedOptions
  {
    StatsLines();
    NestedOnce("stats_level(3);");
    NestedOnce("stats_freq(10);");
  }

  const GlobalOptionsInput := Input(Logging("", "", Some(SyslogNGSpec(Some(GlobalOptions(Some(3), Some(0)))))),
    [], [], 601, NoSecrets)

  // ---------------------------------------------------------------------------
  // Flows of `test-flow` in `default` with one filter and no match or outputs

  /** A flow of `test-flow` in `default` with one chain filter, named `suffix` after the prefix. */
  predicate SingleFilter(f: Flow, suffix: string, statement: string) {
    && f.namespace == "default" && f.name == "test-flow"
    && f.rootMatch.None? && |f.filters| == 1 && f.localOutputRefs == []
    && "filters_" + FilterKey(0, f.filters[0].id) == suffix
    && Statement(f.filters[0].op) + ";" == statement && statement != ""
  }

  lemma SingleFilterDefinitions(f: Flow, suffix: string, statement: string)
    requires SingleFilter(f, suffix, statement)
    ensures Definitions(f) == [NamedBlock(Keyword(f.filters[0].op), FlowPrefix("default", "test-flow") + suffix, [statement])]
  {
    FilterIdIsPrefixed(0, f.filters[0].id);
  }

  lemma SingleFilterBlocks(f: Flow, suffix: string, statement: string)
    requires SingleFilter(f, suffix, statement)
    ensures var kind := Keyword(f.filters[0].op);
      BlocksLines(Definitions(f)) == [kind + " " + "\"flow_default_test-flow_" + (suffix + "\" {"), Nested(1, statement), "};"]
  {
    var kind := Keyword(f.filters[0].op);
    var b := NamedBlock(kind, FlowPrefix("default", "test-flow") + suffix, [statement]);
    SingleFilterDefinitions(f, suffix, statement);
    BlockOfOne(b);
    FlowBlockHeader(kind, suffix, [statement]);
    assert BlocksLines([b]) == BlockLines(b);
  }

  lemma SingleFilterLog(f: Flow, suffix: string, statement: string)
    requires SingleFilter(f, suffix, statement)
    ensures var kind := Keyword(f.filters[0].op);
      LogLines(f) == ["log {"] + ExpectedLogHeader + [Nested(1, kind + "(" + "\"flow_default_test-flow_" + (suffix + "\");")), "};"]
  {
    var kind := Keyword(f.filters[0].op);
    var b := NamedBlock(kind, FlowPrefix("default", "test-flow") + suffix, [statement]);
    SingleFilterDefinitions(f, suffix, statement);
    FlowBlockRef(kind, suffix, [statement]);
    assert RefLines([b]) + DestinationRefs("default", []) == [RefLine(b)];
    LogLines1(f, RefLine(b));
    LogHeaderDefault();
  }

  /** The flow section of such a flow: its one block, then its `log` block. */
  lemma SingleFilterFlow(f: Flow, suffix: string, statement: string)
    requires SingleFilter(f, suffix, statement)
    ensures var kind := Keyword(f.filters[0].op);
      FlowsLines([f]) == [kind + " " + "\"flow_default_test-flow_" + (suffix + "\" {"), Nested(1, statement), "};"]
        + (["log {"] + ExpectedLogHeader + [Nested(1, kind + "(" + "\"flow_default_test-flow_" + (suffix + "\");")), "};"])
  {
    SingleFilterBlocks(f, suffix, statement);
    SingleFilterLog(f, suffix, statement);
    assert FlowsLines([f]) == FlowLines(f);
  }

  /** A document with no options, no outputs and some flows: the preamble, a blank line, the flows. */
  lemma FlowsOnlyDocument(input: Input, preamble: seq<string>)
    requires input.logging.syslogNGSpec == Some(SyslogNGSpec(None)) && PreambleLines(None, input.sourcePort) == preamble
    requires input.outputs == [] && |input.flows| == 1 && input.flows[0].localOutputRefs == []
    ensures RenderConfigInto(input) == Written(None, Unlines(preamble + ([""] + FlowsLines(input.flows))))
  {
    var flows := FlowsLines(input.flows);
    FlowsLinesEmpty(input.flows);
    assert DestinationBlocks([], input.secretStore) == Ok([]);
    SectionsDocument(input, preamble, [], flows);
    SectionsOfOne([], flows);
    assert [] + flows == flows;
    RenderedLines(input, preamble + ([""] + flows));
  }

  /** With one of the two sections empty, the other follows a single blank line. */
  lemma SectionsOfOne(destinations: seq<string>, flows: seq<string>)
    requires destinations == [] || flows == []
    requires destinations + flows != []
    ensures Section(destinations) + Section(flows) == [""] + (destinations + flows)
  {
  }

  /** Rendering writes the document's lines, each ended by a newline. */
  lemma RenderedLines(input: Input, lines: seq<string>)
    requires DocumentLines(input) == Ok(lines)
    ensures RenderConfigInto(input) == Written(None, Unlines(lines))
  {
  }

  // ---------------------------------------------------------------------------
  // "rewrite condition": unset MESSAGE unless it matches `foo`

  /** Appending after a right-nested concatenation appends to its innermost part. */
  lemma Tail2(x: string, y: string, a: string, b: string)
    ensures (x + (y + a)) + b == x + (y + (a + b))
  {
    Assoc(x, y + a, b);
    Assoc(y, a, b);
  }

  lemma Tail3(w: string, x: string, y: string, a: string, b: string)
    ensures (w + (x + (y + a))) + b == w + (x + (y + (a + b)))
  {
    Assoc(w, x + (y + a), b);
    Tail2(x, y, a, b);
  }

  lemma Tail4(v: string, w: string, x: string, y: string, a: string, b: string)
    ensures (v + (w + (x + (y + a)))) + b == v + (w + (x + (y + (a + b))))
  {
    Assoc(v, w + (x + (y + a)), b);
    Tail3(w, x, y, a, b);
  }

  lemma ClosingParens()
    ensures ")" + ")" == "))" && "))" + ")" == ")))" && ")))" + ")" == "))))" && "))))" + ";" == "))));"
  {
  }

  /** The negated leaf, the condition around it and the statement around that, closed one by one. */
  lemma UnsetNotNested(field: string, pattern: string, value: string, valueType: string)
    ensures var h, l, t := UnsetHead(field), LeafHead(pattern, value), TypeClause(valueType);
      Statement(Unset(field, Some(Not(Regexp(pattern, value, valueType))))) + ";"
        == h + (" condition(" + ("(not " + (l + (t + "))));"))))
  {
    var h, l, t := UnsetHead(field), LeafHead(pattern, value), TypeClause(valueType);
    var leaf := Translate(Regexp(pattern, value, valueType));
    var negation := Translate(Not(Regexp(pattern, value, valueType)));
    var condition := ConditionClause(Some(Not(Regexp(pattern, value, valueType))));
    ClosingParens();
    assert leaf == l + (t + ")");
    Tail2(l, t, ")", ")");
    assert negation == "(not " + (l + (t + "))"));
    Tail3("(not ", l, t, "))", ")");
    assert condition == " condition(" + ("(not " + (l + (t + ")))")));
    Tail4(" condition(", "(not ", l, t, ")))", ")");
    Assoc(h, condition + ")", ";");
    Tail4(" condition(", "(not ", l, t, "))))", ";");
  }

  /** An `unset` whose condition negates a leaf, cut before the leaf and before its type clause. */
  lemma UnsetNotShape(field: string, pattern: string, value: string, valueType: string)
    ensures Statement(Unset(field, Some(Not(Regexp(pattern, value, valueType))))) + ";"
      == UnsetHead(field) + " condition((not " + LeafHead(pattern, value) + (TypeClause(valueType) + "))));")
  {
    var h, l, t := UnsetHead(field), LeafHead(pattern, value), TypeClause(valueType);
    UnsetNotNested(field, pattern, value, valueType);
    ConditionNot();
    Regroup(h, " condition(", "(not ", " condition((not ", l, t + "))));");
  }

  lemma ConditionNot()
    ensures " condition(" + "(not " == " condition((not "
  {
  }

  /** A right-nested concatenation read from the left, with its second and third parts joined. */
  lemma Regroup(h: string, c: string, n: string, cn: string, l: string, rest: string)
    requires c + n == cn
    ensures h + (c + (n + (l + rest))) == h + cn + l + rest
  {
    Assoc(c, n, l + rest);
    Assoc(h, cn, l + rest);
    Assoc(h + cn, l, rest);
  }

  const UnsetConditionFlow := Flow("default", "test-flow", None,
    [Filter("", Unset("MESSAGE", Some(Not(Regexp("foo", "MESSAGE", "string")))))], [])

  const UnsetConditionLine := "unset(value(\"MESSAGE\")" + " condition((not " + "match(\"foo\" value(\"MESSAGE\")" + " type(\"string\")))));"

  lemma UnsetCondition()
    ensures Statement(UnsetConditionFlow.filters[0].op) + ";" == UnsetConditionLine
  {
    UnsetNotShape("MESSAGE", "foo", "MESSAGE", "string");
    UnsetMessage();
    FooLeafHead();
    assert TypeClause("string") + "))));" == " type(\"string\")))));";
  }

  lemma UnsetMessage()
    ensures UnsetHead("MESSAGE") == "unset(value(\"MESSAGE\")"
  {
  }

  lemma FooLeafHead()
    ensures LeafHead("foo", "MESSAGE") == "match(\"foo\" value(\"MESSAGE\")"
  {
  }

  const ExpectedUnsetCondition := [
    "rewrite " + "\"flow_default_test-flow_" + ("filters_0" + "\" {"),
    Nested(1, UnsetConditionLine),
    "};"] + (["log {"] + ExpectedLogHeader + [Nested(1, "rewrite(" + "\"flow_default_test-flow_" + ("filters_0" + "\");")), "};"])

  lemma UnsetConditionSingle()
    ensures SingleFilter(UnsetConditionFlow, "filters_0", UnsetConditionLine)
  {
    UnsetCondition();
    FilterKeyZero();
  }

  lemma RewriteConditionLines()
    ensures FlowsLines([UnsetConditionFlow]) == ExpectedUnsetCondition
  {
    UnsetConditionSingle();
    SingleFilterFlow(UnsetConditionFlow, "filters_0", UnsetConditionLine);
    assert "rewrite" + " " == "rewrite ";
    assert "rewrite" + "(" == "rewrite(";
  }

  // ---------------------------------------------------------------------------
  // "parser": a regular-expression parser with one pattern

  const ParserFlow := Flow("default", "test-flow", None,
    [Filter("", RegexpParser([".*test_field -> (?<test_field>.*)$"], ".regexp."))], [])

  const ParserLine := "regexp-parser(patterns(" + ("\".*test_field -> " + "(?<test_field>.*)$\"") + ") prefix(\".regexp.\"));"

  lemma ParserStatement()
    ensures Statement(ParserFlow.filters[0].op) + ";" == ParserLine
  {
    var patterns := QuotedList([".*test_field -> (?<test_field>.*)$"]);
    var rest := ") prefix(" + (Quote(".regexp.") + "))");
    TestFieldPattern();
    RegexpPrefix();
    Assoc("regexp-parser(patterns(", patterns, rest);
    Assoc("regexp-parser(patterns(" + patterns, rest, ";");
  }

  lemma TestFieldPattern()
    ensures QuotedList([".*test_field -> (?<test_field>.*)$"]) == "\".*test_field -> " + "(?<test_field>.*)$\""
  {
    var front, back := ".*test_field -> ", "(?<test_field>.*)$";
    assert front + back == ".*test_field -> (?<test_field>.*)$";
    QuoteSplit(front, back, "");
    assert Quote(front + back) + "" == Quote(front + back);
    assert "\"" + front == "\".*test_field -> ";
    assert back + ("\"" + "") == "(?<test_field>.*)$\"";
  }

  lemma RegexpPrefix()
    ensures ") prefix(" + (Quote(".regexp.") + "))") + ";" == ") prefix(\".regexp.\"));"
  {
  }

  const ExpectedParser := [
    "parser " + "\"flow_default_test-flow_" + ("filters_0" + "\" {"),
    Nested(1, ParserLine),
    "};"] + (["log {"] + ExpectedLogHeader + [Nested(1, "parser(" + "\"flow_default_test-flow_" + ("filters_0" + "\");")), "};"])

  lemma ParserSingle()
    ensures SingleFilter(ParserFlow, "filters_0", ParserLine)
  {
    ParserStatement();
    FilterKeyZero();
  }

  lemma ParserLines()
    ensures FlowsLines([ParserFlow]) == ExpectedParser
  {
    ParserSingle();
    SingleFilterFlow(ParserFlow, "filters_0", ParserLine);
    assert "parser" + " " == "parser ";
    assert "parser" + "(" == "parser(";
  }

  // ---------------------------------------------------------------------------
  // "filter with name": an unconditional unset under the explicit ID `remove message`

  const NamedFilterFlow := Flow("default", "test-flow", None, [Filter("remove message", Unset("MESSAGE", None))], [])

  const UnsetMessageLine := "unset(value(\"MESSAGE\"));"

  lemma UnsetMessageStatement()
    ensures Statement(NamedFilterFlow.filters[0].op) + ";" == UnsetMessageLine
  {
    UnsetMessage();
    assert ConditionClause(None) + ")" == ")";
  }

  const ExpectedNamedFilter := [
    "rewrite " + "\"flow_default_test-flow_" + ("filters_remove message" + "\" {"),
    Nested(1, UnsetMessageLine),
    "};"] + (["log {"] + ExpectedLogHeader + [Nested(1, "rewrite(" + "\"flow_default_test-flow_" + ("filters_remove message" + "\");")), "};"])

  lemma NamedFilterSingle()
    ensures SingleFilter(NamedFilterFlow, "filters_remove message", UnsetMessageLine)
  {
    UnsetMessageStatement();
    assert "filters_" + FilterKey(0, "remove message") == "filters_remove message";
  }

  lemma FilterWithNameLines()
    ensures FlowsLines([NamedFilterFlow]) == ExpectedNamedFilter
  {
    NamedFilterSingle();
    SingleFilterFlow(NamedFilterFlow, "filters_remove message", UnsetMessageLine);
    assert "rewrite" + " " == "rewrite ";
    assert "rewrite" + "(" == "rewrite(";
  }

  // ---------------------------------------------------------------------------
  // "output with secret": a syslog output whose TLS CA file is mounted from a secret

  /** A document with no options, no flows and some outputs that render: the preamble, a blank line, the outputs. */
  lemma OutputsOnlyDocument(input: Input, preamble: seq<string>, destinations: seq<string>)
    requires input.logging.syslogNGSpec == Some(SyslogNGSpec(None)) && PreambleLines(None, input.sourcePort) == preamble
    requires input.flows == []
    requires DestinationBlocks(input.outputs, input.secretStore).Ok?
    requires BlocksLines(DestinationBlocks(input.outputs, input.secretStore).value) == destinations
    requires destinations != []
    ensures RenderConfigInto(input) == Written(None, Unlines(preamble + ([""] + destinations)))
  {
    assert FlowsLines([]) == [];
    SectionsDocument(input, preamble, destinations, []);
    SectionsOfOne(destinations, []);
    assert destinations + [] == destinations;
    RenderedLines(input, preamble + ([""] + destinations));
  }

  /** A syslog statement with TLS, cut after the transport clause, around the CA path and around the ID. */
  lemma TlsSyslogShape(o: Output, store: SecretStore)
    requires o.kind.Syslog? && o.kind.caFile.Some? && Resolvable(store, o.namespace, o.kind.caFile.value)
    ensures var ref := o.kind.caFile.value;
      DriverStatement(o, store)
        == Ok(("syslog(" + (Quote(o.kind.host) + TransportClause(o.kind.transport)))
          + " tls(ca_file(" + (Quote(SecretPath(store.mountPath, o.namespace, ref.name, ref.key)) + "))")
          + " persist_name(" + (Quote(OutputId(o.namespace, o.name)) + "));"))
  {
    var ref := o.kind.caFile.value;
    var head := "syslog(" + (Quote(o.kind.host) + TransportClause(o.kind.transport));
    var tls := TlsClause(Some(SecretPath(store.mountPath, o.namespace, ref.name, ref.key)));
    var q := Quote(OutputId(o.namespace, o.name));
    var tail := PersistNameClause(OutputId(o.namespace, o.name)) + ");";
    assert ResolveSecret(store, o.namespace, ref) == Ok(SecretPath(store.mountPath, o.namespace, ref.name, ref.key));
    assert DriverStatement(o, store) == Ok("syslog(" + (Quote(o.kind.host) + (TransportClause(o.kind.transport) + (tls + tail))));
    Assoc(TransportClause(o.kind.transport), tls, tail);
    Assoc(Quote(o.kind.host), TransportClause(o.kind.transport), tls + tail);
    Assoc("syslog(", Quote(o.kind.host) + TransportClause(o.kind.transport), tls + tail);
    Assoc(head, tls, tail);
    Assoc(" persist_name(", q + ")", ");");
    Assoc(q, ")", ");");
    assert ")" + ");" == "));";
    Assoc(head + tls, " persist_name(", q + "));");
    Assoc(head, " tls(ca_file(", Quote(SecretPath(store.mountPath, o.namespace, ref.name, ref.key)) + "))");
  }

  const SecretOut := Output("default", "my-output", Syslog("127.0.0.1", "", Some(SecretKeyRef("my-secret", "tls.crt"))))

  const TlsSecrets := SecretStore(map[("default", "my-secret") := map["tls.crt" := "asdf"]], "/etc/syslog-ng/secret")

  const SecretSyslogLine := "syslog(\"127.0.0.1\"" + " tls(ca_file(" + ("\"/etc/syslog-ng/secret" + "/default-my-secret-tls.crt\"))")
    + " persist_name(" + "\"output_default_my-output\"));"

  lemma MountedCaFile()
    ensures SecretPath("/etc/syslog-ng/secret", "default", "my-secret", "tls.crt") == "/etc/syslog-ng/secret" + "/default-my-secret-tls.crt"
  {
    var mount := "/etc/syslog-ng/secret";
    assert mount + "/" + "default" + "-" + "my-secret" + "-" + "tls.crt" == mount + ("/" + "default" + "-" + "my-secret" + "-" + "tls.crt");
    assert "/" + "default" + "-" + "my-secret" + "-" + "tls.crt" == "/default-my-secret-tls.crt";
  }

  lemma QuotedCaFile()
    ensures Quote("/etc/syslog-ng/secret" + "/default-my-secret-tls.crt") + "))"
      == "\"/etc/syslog-ng/secret" + "/default-my-secret-tls.crt\"))"
  {
    QuoteSplit("/etc/syslog-ng/secret", "/default-my-secret-tls.crt", "))");
    assert "\"" + "/etc/syslog-ng/secret" == "\"/etc/syslog-ng/secret";
    assert "/default-my-secret-tls.crt" + ("\"" + "))") == "/default-my-secret-tls.crt\"))";
  }

  lemma MyOutputId()
    ensures Quote(OutputId("default", "my-output")) + "));" == "\"output_default_my-output\"));"
    ensures Quote(OutputId("default", "my-output")) + " {" == "\"output_default_my-output\" {"
  {
    assert OutputId("default", "my-output") == "output_default_my-output";
    QuotedMyOutput();
  }

  lemma QuotedMyOutput()
    ensures Quote("output_default_my-output") == "\"output_default_my-output\""
  {
  }

  lemma SecretOutStatement()
    ensures DriverStatement(SecretOut, TlsSecrets) == Ok(SecretSyslogLine)
  {
    CaFileResolvable();
    TlsSyslogShape(SecretOut, TlsSecrets);
    MountedCaFile();
    QuotedCaFile();
    MyOutputId();
    LocalhostHead();
  }

  lemma CaFileResolvable()
    ensures Resolvable(TlsSecrets, "default", SecretKeyRef("my-secret", "tls.crt"))
  {
  }

  lemma LocalhostHead()
    ensures "syslog(" + (Quote("127.0.0.1") + TransportClause("")) == "syslog(\"127.0.0.1\""
  {
    assert TransportClause("") == "";
    assert Quote("127.0.0.1") == "\"127.0.0.1\"";
  }

  const ExpectedSecretOut := ["destination " + "\"output_default_my-output\" {", Nested(1, SecretSyslogLine), "};"]

  lemma SecretOutLines()
    ensures DestinationBlocks([SecretOut], TlsSecrets).Ok?
    ensures BlocksLines(DestinationBlocks([SecretOut], TlsSecrets).value) == ExpectedSecretOut
  {
    SecretOutStatement();
    var b := DestinationBlock(SecretOut, TlsSecrets).value;
    assert DestinationBlocks([SecretOut], TlsSecrets).value == [b];
    BlockOfOne(b);
    MyOutputId();
    assert "destination" + " " == "destination ";
    Assoc("destination ", Quote(OutputId("default", "my-output")), " {");
    assert BlocksLines([b]) == BlockLines(b);
  }

  // ---------------------------------------------------------------------------
  // redis_test.go: an output with an empty spec renders an empty destination block

  const RedisOut := Output("default", "test-redis-out", NoKind)

  lemma RedisOutId()
    ensures Quote(OutputId("default", "test-redis-out")) + " {" == "\"output_default_test-redis-out\" {"
  {
    assert OutputId("default", "test-redis-out") == "output_default_test-redis-out";
    QuotedRedisOut();
  }

  lemma QuotedRedisOut()
    ensures Quote("output_default_test-redis-out") == "\"output_default_test-redis-out\""
  {
  }
}
