/**
  One `destination` block per output, named `output_<namespace>_<name>`. A syslog output
  renders its driver statement; TLS CA material is referenced by the path the secret is mounted
  at, never by its contents. An output with no destination kind renders an empty block.
 */
module Destinations {
  import opened Results
  import opened Text
  import opened Model
  import opened Naming

  /** Can the secret key be mounted from the store? */
  predicate Resolvable(store: SecretStore, namespace: string, ref: SecretKeyRef) {
    (namespace, ref.name) in store.secrets && ref.key in store.secrets[(namespace, ref.name)]
  }

  /**
    Mounts a secret key of the output's namespace and yields the file path to reference.
    The secret's value is looked up only to check that the key exists.
   */
  function ResolveSecret(store: SecretStore, namespace: string, ref: SecretKeyRef): (r: Result<string, RenderError>)
    ensures r.Ok? <==> Resolvable(store, namespace, ref)
    ensures r.Ok? ==> r.value == SecretPath(store.mountPath, namespace, ref.name, ref.key)
    ensures r.Err? ==> r.error == SecretNotFound(namespace, ref.name, ref.key)
  {
    if (namespace, ref.name) !in store.secrets then Err(SecretNotFound(namespace, ref.name, ref.key))
    else if ref.key !in store.secrets[(namespace, ref.name)] then Err(SecretNotFound(namespace, ref.name, ref.key))
    else Ok(SecretPath(store.mountPath, namespace, ref.name, ref.key))
  }

  function TransportClause(transport: string): string {
    if transport == "" then "" else " transport(" + (Quote(transport) + ")")
  }

  function TlsClause(caFilePath: Option<string>): string {
    match caFilePath
    case None => ""
    case Some(path) => " tls(ca_file(" + (Quote(path) + "))")
  }

  function PersistNameClause(id: string): string {
    " persist_name(" + (Quote(id) + ")")
  }

  /** The driver statement of an output's block; empty when no kind is populated. */
  function DriverStatement(o: Output, store: SecretStore): Result<string, RenderError> {
    match o.kind
    case NoKind => Ok("")
    case Syslog(host, transport, caFile) =>
      var caFilePath :-
        match caFile
        case None => Ok(None)
        case Some(ref) =>
          var path :- ResolveSecret(store, o.namespace, ref);
          Ok(Some(path));
      Ok("syslog(" + (Quote(host) + (TransportClause(transport) + (TlsClause(caFilePath)
        + (PersistNameClause(OutputId(o.namespace, o.name)) + ");")))))
  }

  function DestinationBlock(o: Output, store: SecretStore): (r: Result<NamedBlock, RenderError>)
    ensures r.Ok? ==> r.value.kind == "destination" && r.value.id == OutputId(o.namespace, o.name)
    ensures r.Err? <==> o.kind.Syslog? && o.kind.caFile.Some? && !Resolvable(store, o.namespace, o.kind.caFile.value)
    ensures o.kind.NoKind? ==> r == Ok(NamedBlock("destination", OutputId(o.namespace, o.name), [""]))
  {
    var statement :- DriverStatement(o, store);
    Ok(NamedBlock("destination", OutputId(o.namespace, o.name), [statement]))
  }

  /**
    The blocks of all outputs, in declaration order; the first output whose secret cannot be
    mounted makes the whole rendering fail.
   */
  function DestinationBlocks(outputs: seq<Output>, store: SecretStore): (r: Result<seq<NamedBlock>, RenderError>)
    ensures r.Ok? ==> |r.value| == |outputs|
    ensures r.Ok? ==> forall i :: 0 <= i < |outputs| ==>
      DestinationBlock(outputs[i], store) == Ok(r.value[i])
    ensures r.Err? <==> exists i :: 0 <= i < |outputs| && DestinationBlock(outputs[i], store).Err?
    decreases |outputs|
  {
    if |outputs| == 0 then
      Ok([])
    else
      var first :- DestinationBlock(outputs[0], store);
      var others :- DestinationBlocks(outputs[1..], store);
      Ok([first] + others)
  }

  /** A syslog output's statement ends by naming its own block as its `persist_name`. */
  lemma PersistNameIsBlockId(o: Output, store: SecretStore)
    requires o.kind.Syslog?
    requires DestinationBlock(o, store).Ok?
    ensures var b := DestinationBlock(o, store).value;
      var line := b.body[0];
      var tail := PersistNameClause(b.id) + ");";
      |b.body| == 1 && |tail| <= |line| && line[|line| - |tail|..] == tail
  {
    var caFile := o.kind.caFile;
    var caFilePath := if caFile.None? then None else Some(ResolveSecret(store, o.namespace, caFile.value).value);
    var tail := PersistNameClause(OutputId(o.namespace, o.name)) + ");";
    SyslogLine(o, store, caFilePath);
    SyslogLineEnd("syslog(", Quote(o.kind.host), TransportClause(o.kind.transport), TlsClause(caFilePath), tail);
  }

  /** The statement of a syslog output, with the CA file path it resolved to. */
  lemma SyslogLine(o: Output, store: SecretStore, caFilePath: Option<string>)
    requires o.kind.Syslog? && DestinationBlock(o, store).Ok?
    requires caFilePath == if o.kind.caFile.None? then None else Some(ResolveSecret(store, o.namespace, o.kind.caFile.value).value)
    ensures DestinationBlock(o, store).value.body
      == ["syslog(" + (Quote(o.kind.host) + (TransportClause(o.kind.transport) + (TlsClause(caFilePath)
           + (PersistNameClause(OutputId(o.namespace, o.name)) + ");"))))]
  {
  }

  lemma SyslogLineEnd(a: string, b: string, c: string, d: string, tail: string)
    ensures var line := a + (b + (c + (d + tail)));
      |tail| <= |line| && line[|line| - |tail|..] == tail
  {
    SuffixKept(d, tail, tail);
    SuffixKept(c, d + tail, tail);
    SuffixKept(b, c + (d + tail), tail);
    SuffixKept(a, b + (c + (d + tail)), tail);
  }

  /** Putting text in front of a string keeps whatever it ends with. */
  lemma SuffixKept(front: string, s: string, tail: string)
    requires |tail| <= |s| && s[|s| - |tail|..] == tail
    ensures |tail| <= |front + s| && (front + s)[|front + s| - |tail|..] == tail
  {
    assert (front + s)[|front + s| - |tail|..] == s[|s| - |tail|..];
  }

  /** An output without a destination kind renders as a block whose only body line is empty. */
  lemma EmptyKindRendersEmptyBlock(namespace: string, name: string, store: SecretStore)
    ensures DestinationBlock(Output(namespace, name, NoKind), store).Ok?
    ensures BlockLines(DestinationBlock(Output(namespace, name, NoKind), store).value)
      == ["destination " + Quote(OutputId(namespace, name)) + " {", "", "};"]
  {
    var b := DestinationBlock(Output(namespace, name, NoKind), store).value;
    assert Indent(b.body) == [""];
    assert "destination" + " " == "destination ";
  }

  // ---------------------------------------------------------------------------
  // Reading a syslog statement back

  /** The parts of a rendered `syslog(...)` statement. */
  datatype SyslogStatement = SyslogStatement(host: string, transport: string, caFile: Option<string>, persistName: string)

  /** Reads `syslog("<host>"[ transport("<t>")][ tls(ca_file("<path>"))] persist_name("<id>"));`. */
  function ParseDriverStatement(s: string): Option<SyslogStatement> {
    var s1 :- Expect(s, "syslog(");
    var host :- ParseQuoted(s1);
    var transport :- ParseTransport(host.1);
    var tls :- ParseTls(transport.1);
    var s2 :- Expect(tls.1, " persist_name(");
    var id :- ParseQuoted(s2);
    if id.1 == "));" then Some(SyslogStatement(host.0, transport.0, tls.0, id.0)) else None
  }

  /** An optional ` transport("<t>")` clause; its absence reads as the empty transport. */
  function ParseTransport(s: string): Option<(string, string)> {
    match Expect(s, " transport(")
    case None => Some(("", s))
    case Some(s1) =>
      var t :- ParseQuoted(s1);
      var s2 :- Expect(t.1, ")");
      Some((t.0, s2))
  }

  /** An optional ` tls(ca_file("<path>"))` clause. */
  function ParseTls(s: string): Option<(Option<string>, string)> {
    match Expect(s, " tls(ca_file(")
    case None => Some((None, s))
    case Some(s1) =>
      var path :- ParseQuoted(s1);
      var s2 :- Expect(path.1, "))");
      Some((Some(path.0), s2))
  }

  lemma ParseTransportOf(transport: string, rest: string)
    requires Lacks(transport, '"')
    requires StartsWith(rest, " tls(ca_file(") || StartsWith(rest, " persist_name(")
    ensures ParseTransport(TransportClause(transport) + rest) == Some((transport, rest))
  {
    if transport == "" {
      assert TransportClause(transport) + rest == rest;
      if StartsWith(rest, " tls(ca_file(") {
        assert rest[2] == " tls(ca_file("[..|" tls(ca_file("|][2];
        ExpectMismatch(rest, " transport(", 2);
      } else {
        assert rest[1] == " persist_name("[..|" persist_name("|][1];
        ExpectMismatch(rest, " transport(", 1);
      }
    } else {
      var s1 := Quote(transport) + (")" + rest);
      assert TransportClause(transport) + rest == " transport(" + s1;
      ExpectOf(" transport(", s1);
      ParseQuotedOf(transport, ")" + rest);
      ExpectOf(")", rest);
    }
  }

  lemma ParseTlsOf(caFilePath: Option<string>, rest: string)
    requires caFilePath.Some? ==> Lacks(caFilePath.value, '"')
    requires StartsWith(rest, " persist_name(")
    ensures ParseTls(TlsClause(caFilePath) + rest) == Some((caFilePath, rest))
  {
    if caFilePath.None? {
      assert TlsClause(caFilePath) + rest == rest;
      assert rest[1] == " persist_name("[..|" persist_name("|][1];
      ExpectMismatch(rest, " tls(ca_file(", 1);
    } else {
      var path := caFilePath.value;
      var s1 := Quote(path) + ("))" + rest);
      assert TlsClause(caFilePath) + rest == " tls(ca_file(" + s1;
      ExpectOf(" tls(ca_file(", s1);
      ParseQuotedOf(path, "))" + rest);
      ExpectOf("))", rest);
    }
  }

  /** The statement ends with its `persist_name` clause. */
  lemma ParsePersistNameOf(id: string)
    requires Lacks(id, '"')
    ensures var s := PersistNameClause(id) + ");";
      StartsWith(s, " persist_name(") && Expect(s, " persist_name(") == Some(Quote(id) + "));")
  {
    assert PersistNameClause(id) + ");" == " persist_name(" + (Quote(id) + "));");
    ExpectOf(" persist_name(", Quote(id) + "));");
  }

  /** A syslog statement whose parts contain no quote characters reads back part by part. */
  lemma DriverStatementReadsBack(host: string, transport: string, caFilePath: Option<string>, id: string)
    requires Lacks(host, '"') && Lacks(transport, '"') && Lacks(id, '"')
    requires caFilePath.Some? ==> Lacks(caFilePath.value, '"')
    ensures ParseDriverStatement("syslog(" + (Quote(host) + (TransportClause(transport) + (TlsClause(caFilePath)
      + (PersistNameClause(id) + ");"))))) == Some(SyslogStatement(host, transport, caFilePath, id))
  {
    var persist := PersistNameClause(id) + ");";
    var afterHost := TransportClause(transport) + (TlsClause(caFilePath) + persist);
    ParsePersistNameOf(id);
    ParseTlsOf(caFilePath, persist);
    ParseTransportOf(transport, TlsClause(caFilePath) + persist);
    ExpectOf("syslog(", Quote(host) + afterHost);
    ParseQuotedOf(host, afterHost);
    ParseQuotedOf(id, "));");
  }

  /**
    The statement of a syslog output reads back as its host, its transport, the mount path of
    its CA file (if any) and its own block name, provided none of them contains a quote.
   */
  lemma SyslogDestinationReadsBack(o: Output, store: SecretStore)
    requires o.kind.Syslog? && DestinationBlock(o, store).Ok?
    requires Lacks(o.kind.host, '"') && Lacks(o.kind.transport, '"') && Lacks(OutputId(o.namespace, o.name), '"')
    requires o.kind.caFile.Some? ==>
      Lacks(SecretPath(store.mountPath, o.namespace, o.kind.caFile.value.name, o.kind.caFile.value.key), '"')
    ensures var b := DestinationBlock(o, store).value;
      && |b.body| == 1
      && ParseDriverStatement(b.body[0]).Some?
      && var st := ParseDriverStatement(b.body[0]).value;
      && st.host == o.kind.host
      && st.transport == o.kind.transport
      && st.persistName == b.id
      && (st.caFile.Some? <==> o.kind.caFile.Some?)
      && (o.kind.caFile.Some? ==>
            st.caFile.value == SecretPath(store.mountPath, o.namespace, o.kind.caFile.value.name, o.kind.caFile.value.key))
  {
    var caFile := o.kind.caFile;
    var caFilePath := if caFile.None? then None else Some(ResolveSecret(store, o.namespace, caFile.value).value);
    SyslogLine(o, store, caFilePath);
    DriverStatementReadsBack(o.kind.host, o.kind.transport, caFilePath, OutputId(o.namespace, o.name));
  }

  /** Stores that hold the same keys under the same secrets, whatever their values. */
  predicate SameKeys(s1: SecretStore, s2: SecretStore) {
    && s1.mountPath == s2.mountPath
    && s1.secrets.Keys == s2.secrets.Keys
    && forall k :: k in s1.secrets ==> s1.secrets[k].Keys == s2.secrets[k].Keys
  }

  /** The rendered destinations never depend on a secret's value, only on where it is mounted. */
  lemma {:induction false} DestinationBlocksIgnoreSecretValues(outputs: seq<Output>, s1: SecretStore, s2: SecretStore)
    requires SameKeys(s1, s2)
    ensures DestinationBlocks(outputs, s1) == DestinationBlocks(outputs, s2)
    decreases |outputs|
  {
    if |outputs| > 0 {
      var o := outputs[0];
      if o.kind.Syslog? && o.kind.caFile.Some? {
        var ref := o.kind.caFile.value;
        assert Resolvable(s1, o.namespace, ref) == Resolvable(s2, o.namespace, ref);
      }
      assert DestinationBlock(o, s1) == DestinationBlock(o, s2);
      DestinationBlocksIgnoreSecretValues(outputs[1..], s1, s2);
    }
  }
}
