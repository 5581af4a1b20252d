/**
  The whole configuration document. It is the preamble, then the destinations, then the flows.
  Each of the last two sections is preceded by one blank line, and only when it is not empty.
  The document is rendered completely before anything is written, so a failed rendering
  writes nothing.
 */
module Config {
  import opened Results
  import opened Text
  import opened Model
  import opened Destinations
  import opened Flows
  import opened Preamble
  import opened Naming

  /** A non-empty section is set off from what precedes it by one blank line. */
  function Section(lines: seq<string>): seq<string> {
    if |lines| == 0 then [] else [""] + lines
  }

  function SyslogNGSpecOf(logging: Logging): Result<SyslogNGSpec, RenderError> {
    match logging.syslogNGSpec
    case None => Err(MissingSyslogNGSpec)
    case Some(spec) => Ok(spec)
  }

  /**
    The document as lines, or the first error met while rendering it: a missing syslog-ng
    spec, then an output whose secret cannot be mounted, then a flow naming an undeclared
    output.
   */
  function DocumentLines(input: Input): (r: Result<seq<string>, RenderError>)
    ensures r.Err? <==>
      || input.logging.syslogNGSpec.None?
      || DestinationBlocks(input.outputs, input.secretStore).Err?
      || !AllRefsResolve(input.outputs, input.flows)
    ensures input.logging.syslogNGSpec.None? ==> r == Err(MissingSyslogNGSpec)
  {
    var spec :- SyslogNGSpecOf(input.logging);
    var destinations :- DestinationBlocks(input.outputs, input.secretStore);
    match DanglingReferenceIn(input.outputs, input.flows)
    case Some(e) => Err(e)
    case None =>
      Ok(PreambleLines(spec.globalOptions, input.sourcePort)
        + (Section(BlocksLines(destinations)) + Section(FlowsLines(input.flows))))
  }

  /** What a call leaves behind: the error it returned, if any, and the text it wrote. */
  datatype Written = Written(err: Option<RenderError>, out: string)

  /**
    Renders the configuration into an (initially empty) writer. On error nothing is written;
    a missing syslog-ng spec is always an error; otherwise the document starts with the
    preamble and, with no outputs and no flows, is exactly the preamble.
   */
  function RenderConfigInto(input: Input): (w: Written)
    ensures w.err.Some? ==> w.out == ""
    ensures w.err.Some? <==>
      || input.logging.syslogNGSpec.None?
      || DestinationBlocks(input.outputs, input.secretStore).Err?
      || !AllRefsResolve(input.outputs, input.flows)
    ensures input.logging.syslogNGSpec.None? ==> w == Written(Some(MissingSyslogNGSpec), "")
    ensures w.err.None? ==>
      var preamble := Unlines(PreambleLines(input.logging.syslogNGSpec.value.globalOptions, input.sourcePort));
      && |preamble| <= |w.out| && w.out[..|preamble|] == preamble
      && (input.outputs == [] && input.flows == [] ==> w.out == preamble)
  {
    match DocumentLines(input)
    case Err(e) => Written(Some(e), "")
    case Ok(lines) =>
      var preamble := PreambleLines(input.logging.syslogNGSpec.value.globalOptions, input.sourcePort);
      DocumentStartsWithPreamble(input);
      UnlinesPrefix(preamble, lines[|preamble|..]);
      Written(None, Unlines(lines))
  }

  lemma DocumentStartsWithPreamble(input: Input)
    requires DocumentLines(input).Ok?
    ensures var preamble := PreambleLines(input.logging.syslogNGSpec.value.globalOptions, input.sourcePort);
      var lines := DocumentLines(input).value;
      && |preamble| <= |lines|
      && lines == preamble + lines[|preamble|..]
      && (input.outputs == [] && input.flows == [] ==> lines == preamble)
  {
    var destinations := DestinationBlocks(input.outputs, input.secretStore).value;
    BlocksLinesEmpty(destinations);
    FlowsLinesEmpty(input.flows);
    AfterPrefix(PreambleLines(input.logging.syslogNGSpec.value.globalOptions, input.sourcePort),
      Section(BlocksLines(destinations)) + Section(FlowsLines(input.flows)));
  }

  /**
    A flow that names an output its namespace does not declare makes the whole rendering fail
    with a dangling-reference error that names the flow and the output, and nothing is written.
   */
  lemma DanglingReferenceFails(input: Input, i: nat, j: nat)
    requires input.logging.syslogNGSpec.Some? && DestinationBlocks(input.outputs, input.secretStore).Ok?
    requires i < |input.flows| && j < |input.flows[i].localOutputRefs|
    requires !Declares(input.outputs, input.flows[i].namespace, input.flows[i].localOutputRefs[j])
    ensures var w := RenderConfigInto(input);
      && w.err.Some?
      && w.out == ""
      && DanglesIn(input.outputs, input.flows, w.err.value)
  {
    assert !RefsResolve(input.outputs, input.flows[i]);
  }

  lemma AfterPrefix(a: seq<string>, b: seq<string>)
    ensures (a + b)[|a|..] == b
    ensures b == [] ==> a + b == a
  {
  }

  /**
    The text is the preamble, then the destination blocks after a blank line when there are
    outputs, then the flows after a blank line when there are flows.
   */
  lemma DocumentSections(input: Input)
    requires input.logging.syslogNGSpec.Some? && DestinationBlocks(input.outputs, input.secretStore).Ok?
    requires AllRefsResolve(input.outputs, input.flows)
    ensures var spec := input.logging.syslogNGSpec.value;
      var destinations := DestinationBlocks(input.outputs, input.secretStore).value;
      RenderConfigInto(input).out
        == Unlines(PreambleLines(spec.globalOptions, input.sourcePort))
          + (SectionText(BlocksLines(destinations)) + SectionText(FlowsLines(input.flows)))
  {
    var destinations := DestinationBlocks(input.outputs, input.secretStore).value;
    SectionsText(PreambleLines(input.logging.syslogNGSpec.value.globalOptions, input.sourcePort),
      BlocksLines(destinations), FlowsLines(input.flows));
  }

  /** A section as text: nothing when it is empty, else a blank line and its lines. */
  function SectionText(lines: seq<string>): (r: string)
    ensures r == "" <==> |lines| == 0
    ensures |lines| > 0 ==> r == "\n" + Unlines(lines)
  {
    Unlines(Section(lines))
  }

  lemma SectionsText(preamble: seq<string>, destinations: seq<string>, flows: seq<string>)
    ensures Unlines(preamble + (Section(destinations) + Section(flows)))
      == Unlines(preamble) + (SectionText(destinations) + SectionText(flows))
  {
    UnlinesAppend(preamble, Section(destinations) + Section(flows));
    UnlinesAppend(Section(destinations), Section(flows));
  }

  lemma BlocksLinesEmpty(bs: seq<NamedBlock>)
    ensures |BlocksLines(bs)| == 0 <==> |bs| == 0
  {
  }

  lemma FlowsLinesEmpty(flows: seq<Flow>)
    ensures |FlowsLines(flows)| == 0 <==> |flows| == 0
  {
    if |flows| > 0 {
      assert |LogLines(flows[0])| >= 2;
    }
  }

  /**
    Secret values never reach the configuration: two stores that hold the same keys render
    the same result, whatever the keys' contents.
   */
  lemma RenderIgnoresSecretValues(input: Input, other: SecretStore)
    requires SameKeys(input.secretStore, other)
    ensures RenderConfigInto(input) == RenderConfigInto(input.(secretStore := other))
  {
    DestinationBlocksIgnoreSecretValues(input.outputs, input.secretStore, other);
  }

  /**
    The outputs are consulted by the flows only to check their references: once those
    resolve, the flow section is the same whichever outputs are declared.
   */
  lemma FlowsIndependentOfOutputs(input: Input, outputs: seq<Output>)
    requires input.logging.syslogNGSpec.Some?
    requires DestinationBlocks(input.outputs, input.secretStore).Ok? && DestinationBlocks(outputs, input.secretStore).Ok?
    requires AllRefsResolve(input.outputs, input.flows) && AllRefsResolve(outputs, input.flows)
    ensures var flowsText := SectionText(FlowsLines(input.flows));
      && EndsWith(RenderConfigInto(input).out, flowsText)
      && EndsWith(RenderConfigInto(input.(outputs := outputs)).out, flowsText)
  {
    FlowSectionLast(input);
    FlowSectionLast(input.(outputs := outputs));
  }

  /** With every reference resolved, the document ends with the flow section. */
  lemma FlowSectionLast(input: Input)
    requires input.logging.syslogNGSpec.Some? && DestinationBlocks(input.outputs, input.secretStore).Ok?
    requires AllRefsResolve(input.outputs, input.flows)
    ensures EndsWith(RenderConfigInto(input).out, SectionText(FlowsLines(input.flows)))
  {
    DocumentSections(input);
    var spec := input.logging.syslogNGSpec.value;
    EndsWithLast(RenderConfigInto(input).out, Unlines(PreambleLines(spec.globalOptions, input.sourcePort)),
      SectionText(BlocksLines(DestinationBlocks(input.outputs, input.secretStore).value)),
      SectionText(FlowsLines(input.flows)));
  }

  /** Some rendered destination block carries the name `id`, and the line `line` refers to it. */
  predicate RefersToBlock(blocks: seq<NamedBlock>, id: string, line: string) {
    exists k :: 0 <= k < |blocks| && blocks[k].id == id && RefLine(blocks[k]) == line
  }

  /**
    Referential integrity between the two sections. The requires are the conditions under which
    rendering succeeds, and then every `destination(...)` line of every `log` block is the
    reference line of a rendered destination block, and names it.
   */
  lemma DestinationRefsNameBlocks(input: Input)
    requires input.logging.syslogNGSpec.Some? && DestinationBlocks(input.outputs, input.secretStore).Ok?
    requires AllRefsResolve(input.outputs, input.flows)
    ensures RenderConfigInto(input).err.None?
    ensures forall i, j :: 0 <= i < |input.flows| && 0 <= j < |input.flows[i].localOutputRefs| ==>
      var f := input.flows[i];
      RefersToBlock(DestinationBlocks(input.outputs, input.secretStore).value,
        OutputId(f.namespace, f.localOutputRefs[j]), DestinationRef(f.namespace, f.localOutputRefs[j]))
  {
    ResolvedRefsNameBlocks(input.outputs, input.secretStore, input.flows);
  }

  /** With the destinations rendered and every reference resolved, each reference finds its block. */
  lemma ResolvedRefsNameBlocks(outputs: seq<Output>, store: SecretStore, flows: seq<Flow>)
    requires DestinationBlocks(outputs, store).Ok? && AllRefsResolve(outputs, flows)
    ensures forall i, j :: 0 <= i < |flows| && 0 <= j < |flows[i].localOutputRefs| ==>
      RefersToBlock(DestinationBlocks(outputs, store).value,
        OutputId(flows[i].namespace, flows[i].localOutputRefs[j]), DestinationRef(flows[i].namespace, flows[i].localOutputRefs[j]))
  {
    forall i, j | 0 <= i < |flows| && 0 <= j < |flows[i].localOutputRefs|
      ensures RefersToBlock(DestinationBlocks(outputs, store).value,
        OutputId(flows[i].namespace, flows[i].localOutputRefs[j]), DestinationRef(flows[i].namespace, flows[i].localOutputRefs[j]))
    {
      assert RefsResolve(outputs, flows[i]);
      DeclaredNamesBlock(outputs, store, flows[i].namespace, flows[i].localOutputRefs[j]);
    }
  }

  /** A declared output's block is among the rendered ones, and a reference line refers to it. */
  lemma DeclaredNamesBlock(outputs: seq<Output>, store: SecretStore, namespace: string, name: string)
    requires DestinationBlocks(outputs, store).Ok? && Declares(outputs, namespace, name)
    ensures RefersToBlock(DestinationBlocks(outputs, store).value, OutputId(namespace, name), DestinationRef(namespace, name))
  {
    var blocks := DestinationBlocks(outputs, store).value;
    var k :| 0 <= k < |outputs| && outputs[k].namespace == namespace && outputs[k].name == name;
    assert DestinationBlock(outputs[k], store) == Ok(blocks[k]);
    DestinationRefIsRefLine(blocks[k], namespace, name);
  }

  /** A flow's destination line is the reference line of the output's destination block. */
  lemma DestinationRefIsRefLine(b: NamedBlock, namespace: string, name: string)
    requires b.kind == "destination" && b.id == OutputId(namespace, name)
    ensures RefLine(b) == DestinationRef(namespace, name)
  {
    assert "destination" + "(" + Quote(b.id) + ");" == "destination(" + (Quote(b.id) + ");");
  }

  lemma EndsWithLast(s: string, a: string, b: string, c: string)
    requires s == a + (b + c)
    ensures EndsWith(s, c)
  {
  }
}
