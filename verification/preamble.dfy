/**
  The fixed start of every configuration: the version and include header, the optional
  global `options` block, and the `source "main_input"` block that receives JSON records over
  TCP on the configured port.
 */
module Preamble {
  import opened Results
  import opened Text
  import opened Model

  const ConfigVersion := "3.37"

  /** The name of the one source every `log` block reads from. */
  const SourceName := "main_input"

  /** What `stats_freq` becomes when it is declared as 0. */
  const DefaultStatsFreq := 10

  function HeaderLines(): seq<string> {
    ["@version: " + ConfigVersion, "", "@include " + Quote("scl.conf"), ""]
  }

  // ---------------------------------------------------------------------------
  // Integer-valued calls such as `port(601)` or `stats_level(3)`

  function NumericCall(name: string, value: int): string {
    name + ("(" + (IntToString(value) + ")"))
  }

  /** Reads `<name>(<integer>)` from the front of `s`; returns the integer and the text after it. */
  function ParseNumericCall(name: string, s: string): Option<(int, string)> {
    var s1 :- Expect(s, name + "(");
    var split :- SplitAt(s1, ')');
    if IsDecimal(split.0) then Some((ParseInt(split.0), split.1)) else None
  }

  lemma DecimalLacksParen(s: string)
    requires IsDecimal(s)
    ensures Lacks(s, ')')
  {
    if 0 < |s| && s[0] == '-' {
      forall i | 1 <= i < |s|
        ensures s[i] != ')'
      {
        assert s[i] == s[1..][i - 1];
      }
    }
  }

  /** A rendered integer call reads back as the same integer. */
  lemma ParseNumericCallOf(name: string, value: int, rest: string)
    ensures ParseNumericCall(name, NumericCall(name, value) + rest) == Some((value, rest))
  {
    var digits := IntToString(value);
    IntToStringRoundTrip(value);
    DecimalLacksParen(digits);
    assert NumericCall(name, value) + rest == (name + "(") + (digits + ([')'] + rest));
    ExpectOf(name + "(", digits + ([')'] + rest));
    SplitAtOf(digits, ')', rest);
  }

  // ---------------------------------------------------------------------------
  // Global options

  /** The effective statistics frequency: a declared 0 falls back to the default. */
  function StatsFreq(declared: int): (r: int)
    ensures r != 0
    ensures declared != 0 ==> r == declared
    ensures declared == 0 ==> r == DefaultStatsFreq
  {
    if declared == 0 then DefaultStatsFreq else declared
  }

  function OptionLines(name: string, value: Option<int>): seq<string> {
    match value
    case None => []
    case Some(v) => [NumericCall(name, v) + ";"]
  }

  /** One line per declared option: `stats_level` verbatim, then the effective `stats_freq`. */
  function OptionsBody(g: GlobalOptions): (r: seq<string>)
    ensures |r| == (if g.statsLevel.Some? then 1 else 0) + (if g.statsFreq.Some? then 1 else 0)
  {
    OptionLines("stats_level", g.statsLevel)
      + OptionLines("stats_freq", if g.statsFreq.Some? then Some(StatsFreq(g.statsFreq.value)) else None)
  }

  /** Is at least one global option declared? */
  predicate AnyOptionSet(options: Option<GlobalOptions>) {
    options.Some? && (options.value.statsLevel.Some? || options.value.statsFreq.Some?)
  }

  /**
    The `options` block followed by a blank line, or nothing when no global option is declared
    (an absent options record and one with every option unset render alike).
   */
  function OptionsLines(options: Option<GlobalOptions>): (r: seq<string>)
    ensures r == [] <==> !AnyOptionSet(options)
    ensures AnyOptionSet(options) ==> |r| == |OptionsBody(options.value)| + 3
    ensures AnyOptionSet(options) ==> r[0] == "options {" && r[|r| - 2..] == ["};", ""]
    ensures AnyOptionSet(options) ==> forall i :: 0 <= i < |OptionsBody(options.value)| ==>
      r[i + 1] == Indentation + OptionsBody(options.value)[i]
  {
    if AnyOptionSet(options) then ["options {"] + Indent(OptionsBody(options.value)) + ["};", ""] else []
  }

  /**
    Whatever `stats_freq` is declared as, its line reads back as the effective frequency,
    which is never 0 and equals the declared value unless that was 0.
   */
  lemma StatsFreqLineReadsBack(g: GlobalOptions)
    requires g.statsFreq.Some?
    ensures var body := OptionsBody(g);
      var parsed := ParseNumericCall("stats_freq", body[|body| - 1]);
      && parsed.Some?
      && parsed.value.1 == ";"
      && parsed.value.0 != 0
      && (g.statsFreq.value != 0 ==> parsed.value.0 == g.statsFreq.value)
      && (g.statsFreq.value == 0 ==> parsed.value.0 == DefaultStatsFreq)
  {
    var body := OptionsBody(g);
    var effective := StatsFreq(g.statsFreq.value);
    assert body[|body| - 1] == NumericCall("stats_freq", effective) + ";";
    ParseNumericCallOf("stats_freq", effective, ";");
  }

  /** `stats_level` is written first, exactly as declared. */
  lemma StatsLevelLineReadsBack(g: GlobalOptions)
    requires g.statsLevel.Some?
    ensures ParseNumericCall("stats_level", OptionsBody(g)[0]) == Some((g.statsLevel.value, ";"))
  {
    assert OptionsBody(g)[0] == NumericCall("stats_level", g.statsLevel.value) + ";";
    ParseNumericCallOf("stats_level", g.statsLevel.value, ";");
  }

  // ---------------------------------------------------------------------------
  // The source

  /** An unnamed block nested inside another: `<kind> { <body> };` */
  function InnerBlock(kind: string, body: seq<string>): seq<string> {
    [kind + " {"] + Indent(body) + ["};"]
  }

  const NetworkHead := "network(flags(" + Quote("no-parse") + ") "
  const NetworkTail := " transport(" + Quote("tcp") + "));"

  function NetworkLine(port: int): string {
    NetworkHead + (NumericCall("port", port) + NetworkTail)
  }

  const JsonParserLine := "json-parser(prefix(" + Quote("json.") + "));"

  /** The network source on `port`, parsed as JSON with every field under the `json.` prefix. */
  function SourceBlock(port: int): NamedBlock {
    NamedBlock("source", SourceName,
      InnerBlock("channel", InnerBlock("source", [NetworkLine(port)]) + InnerBlock("parser", [JsonParserLine])))
  }

  /** The source listens on exactly the configured port. */
  lemma SourcePortReadsBack(port: int)
    ensures var line := NetworkLine(port);
      && Expect(line, NetworkHead).Some?
      && ParseNumericCall("port", Expect(line, NetworkHead).value) == Some((port, NetworkTail))
  {
    ExpectOf(NetworkHead, NumericCall("port", port) + NetworkTail);
    ParseNumericCallOf("port", port, NetworkTail);
  }

  /** How deep the network driver sits: inside `source`, `channel` and the inner `source`. */
  const SourceMargin := "            "

  /** The port a line of the form `<margin>network(... port(<n>) ...);` listens on. */
  function ListeningPort(line: string): Option<int> {
    var s1 :- Expect(line, SourceMargin + NetworkHead);
    var call :- ParseNumericCall("port", s1);
    if call.1 == NetworkTail then Some(call.0) else None
  }

  /** A nested block with a one-line body: the line is indented once. */
  lemma OneLineInnerBlock(kind: string, line: string)
    requires line != ""
    ensures var r := InnerBlock(kind, [line]);
      |r| == 3 && r[1] == Indentation + line
  {
  }

  /** The channel of the source holds the network driver on its third line, indented twice. */
  lemma ChannelNetworkLine(network: string)
    requires network != ""
    ensures var channel := InnerBlock("channel", InnerBlock("source", [network]) + InnerBlock("parser", [JsonParserLine]));
      |channel| == 8 && channel[2] == Indentation + (Indentation + network)
  {
    OneLineInnerBlock("source", network);
    OneLineInnerBlock("parser", JsonParserLine);
    var inner := InnerBlock("source", [network]) + InnerBlock("parser", [JsonParserLine]);
    assert |inner| == 6 && inner[1] == Indentation + network;
    assert Indent(inner)[1] == IndentLine(inner[1]);
  }

  lemma SourceHeaderText()
    ensures "source" + " " + Quote(SourceName) + " {" == "source \"main_input\" {"
  {
  }

  lemma MarginOfThree(line: string)
    ensures Indentation + (Indentation + (Indentation + line)) == SourceMargin + line
  {
    assert Indentation + (Indentation + (Indentation + line)) == (Indentation + Indentation + Indentation) + line;
  }

  /** The source block is ten lines long, with the network driver on its fourth. */
  lemma SourceBlockShape(port: int)
    ensures var r := BlockLines(SourceBlock(port));
      && |r| == 10
      && r[0] == "source \"main_input\" {"
      && r[3] == SourceMargin + (NetworkHead + (NumericCall("port", port) + NetworkTail))
      && r[9] == "};"
  {
    var network := NetworkLine(port);
    ChannelNetworkLine(network);
    var b := SourceBlock(port);
    var r := BlockLines(b);
    assert r[3] == IndentLine(b.body[2]);
    SourceHeaderText();
    MarginOfThree(network);
  }

  /** The version and include lines open every configuration. */
  lemma HeaderText()
    ensures HeaderLines() == ["@version: 3.37", "", "@include \"scl.conf\"", ""]
  {
    assert "@version: " + ConfigVersion == "@version: 3.37";
    assert "@include " + Quote("scl.conf") == "@include \"scl.conf\"";
  }

  /** Everything written before the destinations: header, options and source. */
  function PreambleLines(options: Option<GlobalOptions>, port: int): (r: seq<string>)
    ensures var k := |OptionsLines(options)|;
      && |r| == k + 14
      && r[..4] == ["@version: 3.37", "", "@include \"scl.conf\"", ""]
      && r[4..4 + k] == OptionsLines(options)
      && r[4 + k] == "source \"main_input\" {"
      && ListeningPort(r[7 + k]) == Some(port)
      && r[|r| - 1] == "};"
  {
    HeaderText();
    SourceBlockShape(port);
    PreambleListensOn(port);
    HeaderLines() + OptionsLines(options) + BlockLines(SourceBlock(port))
  }

  /** The source's network line reads back as the configured port. */
  lemma PreambleListensOn(port: int)
    ensures ListeningPort(SourceMargin + (NetworkHead + (NumericCall("port", port) + NetworkTail))) == Some(port)
  {
    ExpectOf(SourceMargin + NetworkHead, NumericCall("port", port) + NetworkTail);
    assert SourceMargin + (NetworkHead + (NumericCall("port", port) + NetworkTail))
      == (SourceMargin + NetworkHead) + (NumericCall("port", port) + NetworkTail);
    ParseNumericCallOf("port", port, NetworkTail);
  }
}
