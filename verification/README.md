# syslog-ng configuration renderer

A model of the logging operator's syslog-ng configuration renderer, `RenderConfigInto`. From a
Logging resource, syslog-ng outputs and flows, a source port and the secrets TLS material is
mounted from, it writes one syslog-ng configuration document:

- the preamble: the `@version` / `@include` header, an optional `options` block, and the fixed
  `source "main_input"` block that receives JSON records over TCP;
- one `destination` block per output, named `output_<namespace>_<name>`;
- per flow, a `filter` block for the root match, one `rewrite` / `parser` block per chain filter,
  and a `log` block that wires the source, the namespace filter, those blocks and the flow's
  destinations together.

The renderer's own Go file is not part of this model. Its behaviour is reconstructed from the
expected texts of `TestRenderConfigInto` (config_test.go) and `TestRedisOutput`
(redis_test.go), which fix the output byte for byte. Every case of both tests is a lemma in
`Scenarios` stating that the model renders exactly the expected text. Two rules have no expected
text and follow the design of the renderer instead:
- a flow that names an output missing from its namespace is an error. References are checked by
  namespace and name, not by the rendered block name. The two checks differ only when a namespace
  contains `_`, where two outputs can share a block name (`Naming.OutputIdCollision`);
- the `options` block is written only when some global option is set.

The other modules give general contracts: identifier naming, defaulting, omission of optional clauses, ordering, and
read-back (round-trip) lemmas. These show that the syntax of the filter statements, the syslog
driver statement, block headers, option lines and the source port loses nothing, as long as the
values written between quotes contain no quote character. The model does not escape quotes.

Modules, one per file:

- `Results`: `Option` and `Result`.
- `Text`: quoting, decimal numbers, indentation, named blocks, lines.
- `Model`: the input datatypes.
- `Naming`: block identifiers and secret paths.
- `Matching`: match expressions.
- `Filters`: the filter chain.
- `Destinations`: outputs.
- `Preamble`: header, options and source.
- `Flows`: the blocks and `log` block of one flow.
- `Config`: the whole document and `RenderConfigInto`.
- `ScenarioText`: the expected documents of the test cases and the steps that build them.
- `Scenarios`: the test cases.

## Model

| member | source | states |
|---|---|---|
| Config.RenderConfigInto | pkg/sdk/logging/model/syslogng/config/config_test.go:40-56 | A failed rendering writes nothing. It fails exactly when the spec is missing, an output's secret cannot be mounted, or a flow names an undeclared output. A missing spec always fails with that error. Otherwise the text begins with the preamble, and with no outputs and no flows it is exactly the preamble. |
| Config.DocumentLines | pkg/sdk/logging/model/syslogng/config/config_test.go:457-460 | Rendering fails exactly when the spec is missing, some output's secret cannot be mounted, or some flow names an output its namespace does not declare. A missing spec is reported first. |
| Config.DanglingReferenceFails | pkg/sdk/logging/model/syslogng/config/config_test.go:108 | When the spec is present and every CA secret mounts, and flow i names an output its namespace does not declare, the rendering fails with an error that names a dangling reference of some flow, and writes nothing. |
| Config.DocumentStartsWithPreamble | pkg/sdk/logging/model/syslogng/config/config_test.go:165-184 | The rendered lines start with the preamble. Without outputs and flows nothing follows it. |
| Config.DocumentSections | pkg/sdk/logging/model/syslogng/config/config_test.go:114-148 | The text is the preamble, then the destinations section, then the flows section. Each section is preceded by a blank line only when it is non-empty. |
| Config.SectionText | pkg/sdk/logging/model/syslogng/config/config_test.go:307-325 | An empty section contributes no text at all. A non-empty one is a newline followed by its lines. |
| Config.SectionsText | pkg/sdk/logging/model/syslogng/config/config_test.go:114-148 | Turning lines into text distributes over the preamble and the two sections. |
| Config.BlocksLinesEmpty | pkg/sdk/logging/model/syslogng/config/config_test.go:165-184 | The destinations section is empty exactly when there are no outputs. |
| Config.FlowsLinesEmpty | pkg/sdk/logging/model/syslogng/config/config_test.go:165-184 | The flows section is empty exactly when there are no flows. |
| Config.RenderIgnoresSecretValues | pkg/sdk/logging/model/syslogng/config/config_test.go:273-304 | Two secret stores with the same keys under the same secrets render identically, whatever the secret values (`asdf` never reaches the text). |
| Config.FlowsIndependentOfOutputs | pkg/sdk/logging/model/syslogng/config/config_test.go:139-147 | Once every reference resolves, the document ends with the flows section. That section is the same for any two lists of declared outputs. |
| Config.FlowSectionLast | pkg/sdk/logging/model/syslogng/config/config_test.go:114-148 | With every reference resolved, the rendered text ends with the flows section. |
| Config.DestinationRefsNameBlocks | pkg/sdk/logging/model/syslogng/config/config_test.go:129-146 | When the spec is present, every CA secret mounts and every reference resolves, the rendering succeeds. These are exactly the successful renderings. Then every `destination("…")` line of every `log` block is the reference line of a rendered destination block and carries that block's name. |
| Config.DeclaredNamesBlock | pkg/sdk/logging/model/syslogng/config/config_test.go:129-146 | A declared output's block is among the rendered destination blocks, and the flow's destination line refers to it by name. |
| Preamble.PreambleLines | pkg/sdk/logging/model/syslogng/config/config_test.go:165-184 | The preamble is the `@version: 3.37` and `@include "scl.conf"` lines, each followed by a blank line, then the options lines, then the `source "main_input"` block. That block's network line reads back as the configured port, and the preamble ends with `};`. |
| Preamble.StatsFreq | pkg/sdk/logging/model/syslogng/config/config_test.go:155-172 | The effective statistics frequency is never 0. A declared 0 becomes 10; any other value is kept. |
| Preamble.OptionsBody | pkg/sdk/logging/model/syslogng/config/config_test.go:169-172 | One line per declared option and none for an undeclared one. |
| Preamble.OptionsLines | pkg/sdk/logging/model/syslogng/config/config_test.go:150-172 | The `options` block is absent exactly when no global option is set. When present it opens with `options {`, holds each option line indented one level, and is closed and followed by a blank line. |
| Preamble.StatsFreqLineReadsBack | pkg/sdk/logging/model/syslogng/config/config_test.go:169-172 | The `stats_freq` line reads back as the effective frequency: non-zero, the declared value unless that was 0, else 10. |
| Preamble.StatsLevelLineReadsBack | pkg/sdk/logging/model/syslogng/config/config_test.go:170 | The first options line reads back as `stats_level` with exactly the declared value. |
| Preamble.SourcePortReadsBack | pkg/sdk/logging/model/syslogng/config/config_test.go:121 | The network source line reads back as listening on exactly the configured port, for any integer port. |
| Preamble.SourceBlockShape | pkg/sdk/logging/model/syslogng/config/config_test.go:118-127 | The source block is ten lines. It opens with `source "main_input" {`, has the network driver with the port on its fourth line, and closes with `};`. |
| Preamble.PreambleListensOn | pkg/sdk/logging/model/syslogng/config/config_test.go:121 | The network line of the source, at its three-level margin, reads back as exactly the configured port. |
| Preamble.ParseNumericCallOf | pkg/sdk/logging/model/syslogng/config/config_test.go:170-171 | An integer call `<name>(<n>)` reads back as the same integer and the text after it. |
| Text.IntToStringRoundTrip | pkg/sdk/logging/model/syslogng/config/config_test.go:121 | The decimal rendering of any integer is well formed and parses back to that integer. |
| Text.ParseNatOfNatToString | pkg/sdk/logging/model/syslogng/config/config_test.go:136 | Rendering a chain position in decimal and parsing it back returns the position. |
| Text.NatToStringInjective | pkg/sdk/logging/model/syslogng/config/config_test.go:136 | Different chain positions render as different decimal strings. |
| Text.NatToString | pkg/sdk/logging/model/syslogng/config/config_test.go:136 | A position renders as a non-empty digit string with no leading zero unless it is 0. |
| Text.IntToString | pkg/sdk/logging/model/syslogng/config/config_test.go:121 | An integer renders as a non-empty string starting with `-` exactly when it is negative. |
| Text.Indent | pkg/sdk/logging/model/syslogng/config/config_test.go:118-127 | Indentation keeps the number and order of lines and indents each one by one level. |
| Text.BlockLines | pkg/sdk/logging/model/syslogng/config/config_test.go:129-131 | A named block is as long as its body plus two lines. It starts with its header and ends with `};`. |
| Text.BlockLinesIndented | pkg/sdk/logging/model/syslogng/config/config_test.go:129-131 | Every line between the header and `};` is empty or indented. Removing one level of indentation from them gives back the body. |
| Text.BlockHeaderReadsBack | pkg/sdk/logging/model/syslogng/config/config_test.go:129 | A block header reads back as the block's keyword and name, for a keyword without spaces and a name without quotes. |
| Text.RefLines | pkg/sdk/logging/model/syslogng/config/config_test.go:144-145 | Exactly one reference line per block, in the blocks' order. |
| Text.UnlinesAppend | pkg/sdk/logging/model/syslogng/config/config_test.go:114-148 | Joining lines with newlines distributes over concatenation of line sequences. |
| Text.SplitAtOf | pkg/sdk/logging/model/syslogng/config/config_test.go:129-131 | Splitting at the first separator recovers the two parts when the first lacks it. |
| Text.ExpectOf | pkg/sdk/logging/model/syslogng/config/config_test.go:114-148 | Reading a literal off the front of text that starts with it yields exactly the rest. |
| Text.DistinctIdsCons | pkg/sdk/logging/model/syslogng/config/config_test.go:133-138 | A block whose name differs from every name of a list of distinctly named blocks keeps the names distinct when put in front. |
| Naming.FilterKey | pkg/sdk/logging/model/syslogng/config/config_test.go:136 | An explicit filter ID is kept verbatim. Otherwise the key is a digit string that parses back to the zero-based position. |
| Naming.ParseOutputIdOfOutputId | pkg/sdk/logging/model/syslogng/config/config_test.go:130 | For an underscore-free namespace, an output identifier splits back into its namespace and name. |
| Naming.OutputIdInjective | pkg/sdk/logging/model/syslogng/config/config_test.go:129-130 | Outputs in underscore-free namespaces get pairwise different block names. |
| Naming.OutputIdCollision | pkg/sdk/logging/model/syslogng/config/config_test.go:129 | Without that condition two different outputs can share a block name. |
| Naming.MatchIdDiffersFromFilterIds | pkg/sdk/logging/model/syslogng/config/config_test.go:133-136 | A flow's match block never shares its name with one of its chain blocks. |
| Naming.FilterIdsDistinct | pkg/sdk/logging/model/syslogng/config/config_test.go:441 | Two chain filters get different block names when their positions differ, no explicit ID is all digits, and no two explicit IDs are equal. |
| Naming.SecretPathInMountDirectory | pkg/sdk/logging/model/syslogng/config/config_test.go:303-323 | A mounted secret key is a file directly inside the mount directory, named after namespace, secret and key. |
| Matching.Translate | pkg/sdk/logging/model/syslogng/config/config_test.go:134 | Every translated expression ends with `)`. It starts with `(` for a negation and with `m` (of `match`) for a leaf. |
| Matching.TypeClauseOnlyWhenSet | pkg/sdk/logging/model/syslogng/config/config_test.go:134-142 | Setting a type adds ` type("<t>")` just before the leaf's closing parenthesis and changes nothing else. |
| Matching.ParseMatchOfTranslate | pkg/sdk/logging/model/syslogng/config/config_test.go:242 | A translated quote-free expression, followed by any text, reads back as the same expression and that text. |
| Matching.TranslateInjective | pkg/sdk/logging/model/syslogng/config/config_test.go:242 | Different quote-free expressions never translate to the same text. |
| Matching.ParseLeafOf | pkg/sdk/logging/model/syslogng/config/config_test.go:134 | A leaf reads back as the same pattern, field and type. |
| Matching.ParseTypeClauseOf | pkg/sdk/logging/model/syslogng/config/config_test.go:142 | The type clause reads back as the same type, and as no clause when the type is unset. |
| Matching.ParseTypedClauseOf | pkg/sdk/logging/model/syslogng/config/config_test.go:142 | A set type clause reads back as the same type. |
| Text.ParseQuotedOf | pkg/sdk/logging/model/syslogng/config/config_test.go:134 | A quoted quote-free string reads back as that string. |
| Filters.ChainBlocks | pkg/sdk/logging/model/syslogng/config/config_test.go:136-138 | One block per chain filter, in declaration order, each named after its own position or explicit ID. |
| Filters.ConditionOnlyWhenSet | pkg/sdk/logging/model/syslogng/config/config_test.go:241-243 | A condition adds ` condition(<expr>)` just before the unset statement's closing parenthesis and changes nothing else. |
| Filters.QuotedList | pkg/sdk/logging/model/syslogng/config/config_test.go:379 | The pattern list is empty exactly when there are no patterns. Otherwise it starts with a quote. |
| Filters.ParseQuotedListOf | pkg/sdk/logging/model/syslogng/config/config_test.go:379 | A list of quote-free patterns reads back as the same patterns, in order, and the text after them. |
| Filters.StatementReadsBack | pkg/sdk/logging/model/syslogng/config/config_test.go:134-136 | Every quote-free filter statement (`set`, `unset` with or without a condition, `regexp-parser`) reads back as the operation that rendered it. |
| Filters.StatementInjective | pkg/sdk/logging/model/syslogng/config/config_test.go:134-136 | Two quote-free operations with the same statement are the same operation. |
| Filters.ChainIdsDistinct | pkg/sdk/logging/model/syslogng/config/config_test.go:441-449 | With unambiguous explicit IDs, no two chain blocks of a flow share a name. |
| Flows.Definitions | pkg/sdk/logging/model/syslogng/config/config_test.go:133-138 | When the flow has a match, the first block is a `filter` named after the flow and holding the translated match. Then chain filter i is a block with its own keyword, named after position i or its explicit ID, holding its statement. Nothing else is defined. |
| Flows.DestinationRefs | pkg/sdk/logging/model/syslogng/config/config_test.go:146 | One destination reference per named output, in the flow's order, each resolved in the flow's namespace. |
| Flows.Lookup | pkg/sdk/logging/model/syslogng/config/config_test.go:108 | Looking an output up finds it exactly when some output of that namespace has that name. |
| Flows.UnresolvedRef | pkg/sdk/logging/model/syslogng/config/config_test.go:108 | No reference is reported exactly when all of them are declared. A reported one is among the flow's references and is undeclared. |
| Flows.DanglingReferenceIn | pkg/sdk/logging/model/syslogng/config/config_test.go:57-149 | No error is found exactly when every flow's references resolve. A found error names a flow and one of its undeclared outputs. |
| Flows.LogBodyOrder | pkg/sdk/logging/model/syslogng/config/config_test.go:139-147 | The `log` block lists the source and namespace filter first, then a reference to every defined block in definition order, then the destinations in the flow's order. |
| Flows.MatchIdNotInChain | pkg/sdk/logging/model/syslogng/config/config_test.go:133-136 | The match block's name differs from every chain block's name. |
| Flows.DefinitionIdsDistinct | pkg/sdk/logging/model/syslogng/config/config_test.go:133-138 | With unambiguous explicit IDs, no two blocks a flow defines share a name. |
| Destinations.ResolveSecret | pkg/sdk/logging/model/syslogng/config/config_test.go:465-496 | A secret key resolves exactly when the output's namespace holds that secret with that key. It resolves to `<mountPath>/<namespace>-<secret>-<key>`. Otherwise it fails naming the missing key. |
| Destinations.DestinationBlock | pkg/sdk/logging/model/syslogng/config/output_tests/redis_test.go:25-40 | Every output's block is a `destination` named `output_<namespace>_<name>`. It fails only for an unmountable CA secret. An output with no kind renders an empty body. |
| Destinations.DestinationBlocks | pkg/sdk/logging/model/syslogng/config/config_test.go:129-131 | One block per output in declaration order. The whole rendering fails exactly when some output's block fails. |
| Destinations.PersistNameIsBlockId | pkg/sdk/logging/model/syslogng/config/config_test.go:130 | A syslog statement ends with a `persist_name` equal to its own block's name. |
| Destinations.DriverStatementReadsBack | pkg/sdk/logging/model/syslogng/config/config_test.go:130 | A syslog statement with quote-free parts reads back as its host, transport, optional CA path and persist name. |
| Destinations.SyslogDestinationReadsBack | pkg/sdk/logging/model/syslogng/config/config_test.go:323 | A syslog output's one body line reads back as its host and transport, its own block name as persist name, and the mounted path of its CA secret exactly when it has one. |
| Destinations.EmptyKindRendersEmptyBlock | pkg/sdk/logging/model/syslogng/config/output_tests/redis_test.go:32-37 | An output with no kind renders without error as a named block with one empty body line: no `persist_name`, no driver. |
| Destinations.DestinationBlocksIgnoreSecretValues | pkg/sdk/logging/model/syslogng/config/config_test.go:273-304 | The destination blocks depend only on which secret keys exist and where they are mounted, never on their values. |
| Scenarios.EmptyInputFails | pkg/sdk/logging/model/syslogng/config/config_test.go:40-45 | All-zero input fails with the missing-spec error and writes nothing. |
| Scenarios.NoSyslogNGSpecFails | pkg/sdk/logging/model/syslogng/config/config_test.go:46-56 | Any input without a syslog-ng spec fails with that error and writes nothing, whatever else it holds. |
| Scenarios.SingleFlowWithSingleOutput | pkg/sdk/logging/model/syslogng/config/config_test.go:57-149 | The rendered text of the single-flow, single-output case is exactly the expected document. |
| Scenarios.DanglingOutputFails | pkg/sdk/logging/model/syslogng/config/config_test.go:57-149 | The single-flow input without its output fails, naming flow `test-flow` and output `test-syslog-out`, and writes nothing. |
| ScenarioText.SingleFlowDocument | pkg/sdk/logging/model/syslogng/config/config_test.go:114-148 | The same case as lines: preamble, blank, destination, blank, match and rewrite blocks, `log` block. |
| Scenarios.GlobalOptionsDocument | pkg/sdk/logging/model/syslogng/config/config_test.go:150-184 | With `stats_level(3)` and `stats_freq(0)` the text is the header, an options block with `stats_freq(10)`, and the source. Nothing follows. |
| Scenarios.RewriteCondition | pkg/sdk/logging/model/syslogng/config/config_test.go:186-252 | An unset with a negated typed match renders exactly as expected, flow section only. |
| Scenarios.OutputWithSecret | pkg/sdk/logging/model/syslogng/config/config_test.go:253-326 | A syslog output with a TLS CA file from a mounted secret renders exactly as expected. The mount path is referenced and the value is not. |
| Scenarios.Parser | pkg/sdk/logging/model/syslogng/config/config_test.go:327-389 | A regular-expression parser renders exactly as expected, as a `parser` block and reference. |
| Scenarios.FilterWithName | pkg/sdk/logging/model/syslogng/config/config_test.go:390-452 | A filter with the explicit ID `remove message` is named and referenced by that ID, spaces kept. |
| Scenarios.EmptyRedisOutput | pkg/sdk/logging/model/syslogng/config/output_tests/redis_test.go:25-40 | An output with an empty spec renders, after its blank line, as `destination "output_default_test-redis-out" {`, an empty line, `};`. |
| ScenarioText.LogHeaderDefault | pkg/sdk/logging/model/syslogng/config/config_test.go:140-143 | Every `log` block of a flow in `default` starts by reading `main_input` and keeping the `default` namespace. |
| ScenarioText.SourceText | pkg/sdk/logging/model/syslogng/config/config_test.go:118-127 | The source block on port 601 is exactly the expected ten lines. |
| ScenarioText.PlainSyslogShape | pkg/sdk/logging/model/syslogng/config/config_test.go:130 | A syslog output without TLS renders `syslog("<host>"`, the transport clause, then `persist_name("<block name>"));`. |
| ScenarioText.TlsSyslogShape | pkg/sdk/logging/model/syslogng/config/config_test.go:323 | A syslog output with a mountable CA secret renders its `tls(ca_file("<mount path>"))` clause between the transport and the persist name. |

The operations `OutputId`, `FlowMatchId`, `FilterId`, `SecretPath`, `Statement`,
`DriverStatement`, `LogBody`, `FlowsLines`, `SourceBlock` and `Matching.Leaf` only compute. Their
properties are stated by the rows above: `Naming.ParseOutputIdOfOutputId`,
`Naming.OutputIdInjective`, `Naming.MatchIdDiffersFromFilterIds`, `Naming.FilterIdsDistinct`,
`Naming.SecretPathInMountDirectory`, `Filters.StatementReadsBack`,
`Destinations.SyslogDestinationReadsBack`, `Flows.LogBodyOrder`, `Config.FlowsLinesEmpty`,
`Preamble.SourceBlockShape` and `Matching.ParseLeafOf`.

## Left out

- The renderer's Go file is not part of this model. Behaviour is taken from the expected texts only, so cases they do not cover rest on the simplest rule consistent with them:
  - blocks inside one section are not separated by blank lines;
  - the options block keeps its trailing blank line.
- `And` / `Or` match combinators, and every destination kind other than syslog and the empty spec. No expected text shows their syntax.
- Model.FilterOp: a `set` carries no condition. Only `unset` has the optional condition gate, because no expected text shows a conditional `set`.
- Model.OutputKind: a syslog output has only host, transport and a CA file. There is no port, no other TLS material and no batching sub-options, and a TLS block without a CA file renders like no TLS at all. No expected text shows the syntax of the missing options.
- Destinations.ResolveSecret: a secret reference is always a key of a mounted secret. An inline literal value, which the resolver returns unchanged, is not modelled, because no expected text uses one.
- Filters holding more than one rewrite rule. Every shown filter holds one rule, so a `Filter` is one operation.
- Flows.DanglingReferenceIn: does not promise which dangling reference is reported when there are several. No expected text fixes the choice; the model reports the first flow's first one.
- The Kubernetes secret plumbing (`secretLoaderFactory`, `secretReader`, the client, recording mounted secrets). A secret store is a map from (namespace, name) to the key/value map of the secret.
- Destinations.ResolveSecret: the error for a missing secret or key is modelled as `SecretNotFound`. No expected text shows that error.
- The `io.Writer` sink and the test harness. The output is a returned string, and on error the string is empty.
- `untab` is not modelled. Indentation is four spaces throughout. A blank body line carries no indentation.
- Go's `int` width. Ports, stats values and positions are unbounded integers; overflow is not modelled.
- output/mongodb.go only declares data types whose rendering is not part of this model.
