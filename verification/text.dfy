/**
  Lexical shapes of the syslog-ng configuration language as the renderer writes them:
  quoted strings (never escaped), decimal integers, four-space indentation, named blocks,
  and the document as a sequence of newline-terminated lines.
 */
module Text {
  import opened Results

  const Indentation := "    "

  /** A double-quoted string; embedded quote characters are NOT escaped. */
  function Quote(s: string): string {
    ['"'] + (s + ['"'])
  }

  predicate StartsWith(s: string, prefix: string) {
    |prefix| <= |s| && s[..|prefix|] == prefix
  }

  predicate EndsWith(s: string, suffix: string) {
    |suffix| <= |s| && s[|s| - |suffix|..] == suffix
  }

  /** The text after the literal `lit`, if `s` begins with it. */
  function Expect(s: string, lit: string): (r: Option<string>)
    ensures r.Some? ==> |r.value| + |lit| == |s|
  {
    if StartsWith(s, lit) then Some(s[|lit|..]) else None
  }

  lemma ExpectOf(lit: string, rest: string)
    ensures Expect(lit + rest, lit) == Some(rest)
  {
    assert (lit + rest)[..|lit|] == lit;
  }

  // ---------------------------------------------------------------------------
  // Decimal integers

  predicate IsDigit(c: char) {
    '0' <= c <= '9'
  }

  predicate IsDigits(s: string) {
    forall i :: 0 <= i < |s| ==> IsDigit(s[i])
  }

  function DigitChar(d: nat): (c: char)
    requires d < 10
    ensures IsDigit(c) && (c as int) - ('0' as int) == d
  {
    ['0', '1', '2', '3', '4', '5', '6', '7', '8', '9'][d]
  }

  function DigitValue(c: char): nat
    requires IsDigit(c)
  {
    (c as int) - ('0' as int)
  }

  /** Decimal rendering of a natural number, as Go's %d / strconv.Itoa prints it. */
  function NatToString(n: nat): (r: string)
    ensures 1 <= |r|
    ensures IsDigits(r)
    ensures r[0] == '0' ==> n == 0
    decreases n
  {
    if n < 10 then [DigitChar(n)] else NatToString(n / 10) + [DigitChar(n % 10)]
  }

  /** Decimal rendering of a (possibly negative) Go int. */
  function IntToString(i: int): (r: string)
    ensures 1 <= |r|
    ensures i < 0 <==> r[0] == '-'
  {
    if i < 0 then "-" + NatToString(-i) else NatToString(i)
  }

  /** Reads a string of digits back as a number (the inverse of NatToString). */
  function ParseNat(s: string): nat
    requires IsDigits(s)
  {
    if |s| == 0 then 0 else ParseNat(s[..|s| - 1]) * 10 + DigitValue(s[|s| - 1])
  }

  predicate IsDecimal(s: string) {
    if 0 < |s| && s[0] == '-' then IsDigits(s[1..]) else IsDigits(s)
  }

  function ParseInt(s: string): int
    requires IsDecimal(s)
  {
    if 0 < |s| && s[0] == '-' then -(ParseNat(s[1..]) as int) else ParseNat(s)
  }

  lemma {:induction false} ParseNatOfNatToString(n: nat)
    ensures ParseNat(NatToString(n)) == n
    decreases n
  {
    if n >= 10 {
      var s := NatToString(n);
      assert s[..|s| - 1] == NatToString(n / 10);
      ParseNatOfNatToString(n / 10);
    }
  }

  /** Decimal rendering loses nothing: the printed integer reads back as itself. */
  lemma IntToStringRoundTrip(i: int)
    ensures IsDecimal(IntToString(i))
    ensures ParseInt(IntToString(i)) == i
  {
    var s := IntToString(i);
    if i < 0 {
      assert s[0] == '-' && s[1..] == NatToString(-i);
      ParseNatOfNatToString(-i);
    } else {
      assert s == NatToString(i) && IsDigit(s[0]);
      ParseNatOfNatToString(i);
    }
  }

  lemma NatToStringInjective(m: nat, n: nat)
    requires NatToString(m) == NatToString(n)
    ensures m == n
  {
    ParseNatOfNatToString(m);
    ParseNatOfNatToString(n);
  }

  // ---------------------------------------------------------------------------
  // Lines and blocks

  /** Every non-empty line is indented by four spaces; an empty line stays empty. */
  function IndentLine(line: string): string {
    if line == "" then "" else Indentation + line
  }

  function Indent(lines: seq<string>): (r: seq<string>)
    ensures |r| == |lines|
    ensures forall i :: 0 <= i < |lines| ==> r[i] == IndentLine(lines[i])
  {
    if |lines| == 0 then [] else [IndentLine(lines[0])] + Indent(lines[1..])
  }

  /** A named top-level statement: `<kind> "<id>" { <body> };` */
  datatype NamedBlock = NamedBlock(kind: string, id: string, body: seq<string>)

  function BlockHeader(b: NamedBlock): string {
    b.kind + " " + Quote(b.id) + " {"
  }

  /** Removes one level of indentation, the inverse of IndentLine. */
  function Unindent(line: string): string {
    if StartsWith(line, Indentation) then line[|Indentation|..] else line
  }

  /** Every line strictly between the first and the last is empty or indented. */
  predicate IndentedInside(lines: seq<string>) {
    forall i :: 1 <= i < |lines| - 1 ==> lines[i] == "" || StartsWith(lines[i], Indentation)
  }

  /** Removing one level of indentation from the lines after the first gives back `body`. */
  predicate UnindentsTo(lines: seq<string>, body: seq<string>) {
    |body| < |lines| && forall i :: 0 <= i < |body| ==> Unindent(lines[i + 1]) == body[i]
  }

  /** A named block opens with its header and closes with `};`. */
  function BlockLines(b: NamedBlock): (r: seq<string>)
    ensures |r| == |b.body| + 2
    ensures r[0] == BlockHeader(b) && r[|r| - 1] == "};"
  {
    [BlockHeader(b)] + Indent(b.body) + ["};"]
  }

  lemma UnindentOfIndentLine(line: string)
    ensures Unindent(IndentLine(line)) == line
  {
    if line != "" {
      assert IndentLine(line)[..|Indentation|] == Indentation;
    }
  }

  /**
    Every line between a block's header and its `};` is empty or indented, and removing one
    level of indentation from them gives back the body.
   */
  lemma BlockLinesIndented(b: NamedBlock)
    ensures IndentedInside(BlockLines(b))
    ensures UnindentsTo(BlockLines(b), b.body)
  {
    var r := BlockLines(b);
    forall i | 0 <= i < |b.body|
      ensures r[i + 1] == IndentLine(b.body[i]) && Unindent(r[i + 1]) == b.body[i]
    {
      UnindentOfIndentLine(b.body[i]);
    }
    forall i | 1 <= i < |r| - 1
      ensures r[i] == "" || StartsWith(r[i], Indentation)
    {
      assert r[i] == IndentLine(b.body[i - 1]);
    }
  }

  /** Reads a block header `<kind> "<id>" {` back into its kind and name. */
  function ParseBlockHeader(line: string): Option<(string, string)> {
    var split :- SplitAt(line, ' ');
    var quoted :- ParseQuoted(split.1);
    if quoted.1 == " {" then Some((split.0, quoted.0)) else None
  }

  /** A block whose keyword has no space and whose name has no quote is recognised by its header. */
  lemma BlockHeaderReadsBack(b: NamedBlock)
    requires Lacks(b.kind, ' ') && Lacks(b.id, '"')
    ensures ParseBlockHeader(BlockLines(b)[0]) == Some((b.kind, b.id))
  {
    assert BlockHeader(b) == b.kind + ([' '] + (Quote(b.id) + " {"));
    SplitAtOf(b.kind, ' ', Quote(b.id) + " {");
    ParseQuotedOf(b.id, " {");
  }

  /** The lines of several blocks, one after another with nothing in between. */
  function BlocksLines(bs: seq<NamedBlock>): seq<string> {
    if |bs| == 0 then [] else BlockLines(bs[0]) + BlocksLines(bs[1..])
  }

  /** No two blocks share a name. */
  predicate DistinctIds(bs: seq<NamedBlock>) {
    forall i, j :: 0 <= i < j < |bs| ==> bs[i].id != bs[j].id
  }

  /** A block whose name differs from every name in a list keeps the names distinct when prepended. */
  lemma DistinctIdsCons(b: NamedBlock, bs: seq<NamedBlock>)
    requires DistinctIds(bs)
    requires forall k :: 0 <= k < |bs| ==> bs[k].id != b.id
    ensures DistinctIds([b] + bs)
  {
    var all := [b] + bs;
    forall i, j | 0 <= i < j < |all|
      ensures all[i].id != all[j].id
    {
      assert all[j] == bs[j - 1];
      if i > 0 {
        assert all[i] == bs[i - 1];
      }
    }
  }

  /** The reference to a named block from inside a `log` block: `<kind>("<id>");` */
  function RefLine(b: NamedBlock): string {
    b.kind + "(" + Quote(b.id) + ");"
  }

  function RefLines(bs: seq<NamedBlock>): (r: seq<string>)
    ensures |r| == |bs|
    ensures forall i :: 0 <= i < |bs| ==> r[i] == RefLine(bs[i])
  {
    if |bs| == 0 then [] else [RefLine(bs[0])] + RefLines(bs[1..])
  }

  // ---------------------------------------------------------------------------
  // The document as text

  /** Writes lines, each followed by a newline. */
  function Unlines(lines: seq<string>): string {
    if |lines| == 0 then "" else lines[0] + ("\n" + Unlines(lines[1..]))
  }

  lemma {:induction false} UnlinesAppend(a: seq<string>, b: seq<string>)
    ensures Unlines(a + b) == Unlines(a) + Unlines(b)
    decreases |a|
  {
    if |a| > 0 {
      assert (a + b)[0] == a[0];
      assert (a + b)[1..] == a[1..] + b;
      calc {
        Unlines(a + b);
        a[0] + ("\n" + Unlines(a[1..] + b));
        { UnlinesAppend(a[1..], b); }
        a[0] + ("\n" + (Unlines(a[1..]) + Unlines(b)));
        (a[0] + ("\n" + Unlines(a[1..]))) + Unlines(b);
      }
    } else {
      assert a + b == b;
    }
  }

  /** The text of some lines is a prefix of the text of those lines followed by more. */
  lemma UnlinesPrefix(a: seq<string>, b: seq<string>)
    ensures var s := Unlines(a + b);
      |Unlines(a)| <= |s| && s[..|Unlines(a)|] == Unlines(a)
  {
    UnlinesAppend(a, b);
  }

  /** Is `c` absent from `s`? */
  predicate Lacks(s: string, c: char) {
    forall i :: 0 <= i < |s| ==> s[i] != c
  }

  /** Splits `s` at the first occurrence of `sep`: the text before it and the text after it. */
  function SplitAt(s: string, sep: char): (r: Option<(string, string)>)
    ensures r.None? <==> Lacks(s, sep)
    ensures r.Some? ==> |r.value.1| < |s|
    decreases |s|
  {
    if |s| == 0 then None
    else if s[0] == sep then Some(("", s[1..]))
    else
      match SplitAt(s[1..], sep)
      case None => None
      case Some((before, after)) => Some(([s[0]] + before, after))
  }

  /** Splitting at the first separator finds exactly the separator that was put there. */
  lemma {:induction false} SplitAtOf(before: string, sep: char, after: string)
    requires Lacks(before, sep)
    ensures SplitAt(before + ([sep] + after), sep) == Some((before, after))
    decreases |before|
  {
    var s := before + ([sep] + after);
    if |before| > 0 {
      assert s[0] == before[0];
      assert s[1..] == before[1..] + ([sep] + after);
      SplitAtOf(before[1..], sep, after);
      assert [before[0]] + before[1..] == before;
    } else {
      assert s[1..] == after;
    }
  }

  /** Reads a quoted string from the front of `s`; returns its contents and the text after it. */
  function ParseQuoted(s: string): (r: Option<(string, string)>)
    ensures r.Some? ==> |r.value.1| < |s|
  {
    var s1 :- Expect(s, "\"");
    SplitAt(s1, '"')
  }

  /** A quoted string without quote characters reads back as itself. */
  lemma ParseQuotedOf(s: string, rest: string)
    requires Lacks(s, '"')
    ensures ParseQuoted(Quote(s) + rest) == Some((s, rest))
  {
    assert Quote(s) + rest == "\"" + (s + ("\"" + rest));
    ExpectOf("\"", s + ("\"" + rest));
    SplitAtOf(s, '"', rest);
  }

  /** A text that differs from a literal somewhere within the literal does not start with it. */
  lemma ExpectMismatch(s: string, lit: string, k: nat)
    requires k < |lit| && k < |s| && s[k] != lit[k]
    ensures Expect(s, lit) == None
  {
    if |lit| <= |s| {
      assert s[..|lit|][k] != lit[k];
    }
  }
}
