/**
  The renderer's table-test scenarios, each as a lemma that the rendered document is exactly
  the expected text, written line by line (`Unlines` ends every line with a newline). The
  inputs and expected lines are spelled out in `ScenarioText`, together with the proof steps.
 */
module Scenarios {
  import opened Results
  import opened Text
  import opened Model
  import opened Naming
  import opened Destinations
  import opened Preamble
  import opened Config
  import opened ScenarioText

  /** config_test.go, "empty input": every field at its zero value. */
  lemma EmptyInputFails()
    ensures RenderConfigInto(Input(Logging("", "", None), [], [], 0, NoSecrets)) == Written(Some(MissingSyslogNGSpec), "")
  {
  }

  /** config_test.go, "no syslog-ng spec": whatever else is given, a missing spec is an error. */
  lemma NoSyslogNGSpecFails(logging: Logging, outputs: seq<Output>, flows: seq<Flow>, port: int, store: SecretStore)
    requires logging.syslogNGSpec.None?
    ensures RenderConfigInto(Input(logging, outputs, flows, port, store)) == Written(Some(MissingSyslogNGSpec), "")
  {
  }

  /**
    config_test.go, "single flow with single output": the preamble, a blank line, the syslog
    destination, a blank line, the match and rewrite blocks and the `log` block.
   */
  lemma SingleFlowWithSingleOutput()
    ensures RenderConfigInto(SingleFlowInput) == Written(None, Unlines(SingleFlowLines))
  {
    SingleFlowDocument();
  }

  /**
    The same flow without the output it names: the reference dangles, the rendering fails
    naming the flow and the output, and nothing is written.
   */
  lemma DanglingOutputFails()
    ensures RenderConfigInto(SingleFlowInput.(outputs := []))
      == Written(Some(DanglingReference("default", "test-flow", "test-syslog-out")), "")
  {
  }

  /** config_test.go, "global options": `stats_freq(0)` is written as `stats_freq(10)`; no sections follow. */
  lemma GlobalOptionsDocument()
    ensures RenderConfigInto(GlobalOptionsInput) == Written(None, Unlines(ExpectedHeader + ExpectedOptions + ExpectedSource))
  {
    HeaderText();
    OptionsText();
    SourceText();
  }

  /** config_test.go, "rewrite condition": an unset under a negated typed match. */
  lemma RewriteCondition()
    ensures RenderConfigInto(Input(Logging("", "", Some(SyslogNGSpec(None))), [], [UnsetConditionFlow], 601, NoSecrets))
      == Written(None, Unlines(ExpectedHeader + ExpectedSource + ([""] + ExpectedUnsetCondition)))
  {
    RewriteConditionLines();
    PreambleOn601();
    FlowsOnlyDocument(Input(Logging("", "", Some(SyslogNGSpec(None))), [], [UnsetConditionFlow], 601, NoSecrets), ExpectedHeader + ExpectedSource);
  }

  /** config_test.go, "output with secret": the CA file is referenced by its mount path, never by its value. */
  lemma OutputWithSecret()
    ensures RenderConfigInto(Input(Logging("logging", "test", Some(SyslogNGSpec(None))), [SecretOut], [], 601, TlsSecrets))
      == Written(None, Unlines(ExpectedHeader + ExpectedSource + ([""] + ExpectedSecretOut)))
  {
    SecretOutLines();
    PreambleOn601();
    OutputsOnlyDocument(Input(Logging("logging", "test", Some(SyslogNGSpec(None))), [SecretOut], [], 601, TlsSecrets), ExpectedHeader + ExpectedSource, ExpectedSecretOut);
  }

  /** config_test.go, "parser": a regular-expression parser block and its reference. */
  lemma Parser()
    ensures RenderConfigInto(Input(Logging("logging", "test", Some(SyslogNGSpec(None))), [], [ParserFlow], 601, NoSecrets))
      == Written(None, Unlines(ExpectedHeader + ExpectedSource + ([""] + ExpectedParser)))
  {
    ParserLines();
    PreambleOn601();
    FlowsOnlyDocument(Input(Logging("logging", "test", Some(SyslogNGSpec(None))), [], [ParserFlow], 601, NoSecrets), ExpectedHeader + ExpectedSource);
  }

  /** config_test.go, "filter with name": the block is named after the explicit ID, spaces kept. */
  lemma FilterWithName()
    ensures RenderConfigInto(Input(Logging("logging", "test", Some(SyslogNGSpec(None))), [], [NamedFilterFlow], 601, NoSecrets))
      == Written(None, Unlines(ExpectedHeader + ExpectedSource + ([""] + ExpectedNamedFilter)))
  {
    FilterWithNameLines();
    PreambleOn601();
    FlowsOnlyDocument(Input(Logging("logging", "test", Some(SyslogNGSpec(None))), [], [NamedFilterFlow], 601, NoSecrets), ExpectedHeader + ExpectedSource);
  }

  /** redis_test.go: an output with an empty spec renders an empty destination block. */
  lemma EmptyRedisOutput(store: SecretStore)
    ensures DestinationBlocks([RedisOut], store).Ok?
    ensures SectionText(BlocksLines(DestinationBlocks([RedisOut], store).value))
      == "\n" + Unlines(["destination " + "\"output_default_test-redis-out\" {", "", "};"])
  {
    EmptyKindRendersEmptyBlock("default", "test-redis-out", store);
    var b := DestinationBlock(RedisOut, store).value;
    assert DestinationBlocks([RedisOut], store).value == [b];
    assert BlocksLines([b]) == BlockLines(b);
    RedisOutId();
    Assoc("destination ", Quote(OutputId("default", "test-redis-out")), " {");
  }
}
