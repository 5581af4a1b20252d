/**
  The renderer's input: the Logging resource, the syslog-ng outputs and flows, the port of the
  shared input source, and the secret store that TLS material is mounted from.

  Go's zero-value conventions are kept where the renderer relies on them: an empty string for
  a match `type`, a syslog `transport` or a filter `ID` means "not set". Go pointers that the
  renderer tests against nil are `Option`s.
 */
module Model {
  import opened Results

  /** A flow's or a rewrite condition's match expression: a regular-expression leaf or a negation. */
  datatype MatchExpr =
    | Regexp(pattern: string, field: string, valueType: string)
    | Not(operand: MatchExpr)

  /** The operation one element of a flow's filter chain performs. */
  datatype FilterOp =
    | Set(field: string, value: string)
    | Unset(field: string, condition: Option<MatchExpr>)
    | RegexpParser(patterns: seq<string>, prefix: string)

  /** One element of a flow's filter chain; `id == ""` means the chain position names it. */
  datatype Filter = Filter(id: string, op: FilterOp)

  /** A key of a secret in the output's own namespace, mounted as a file. */
  datatype SecretKeyRef = SecretKeyRef(name: string, key: string)

  /** The populated destination kind of an output; `NoKind` is an output whose spec is empty. */
  datatype OutputKind =
    | Syslog(host: string, transport: string, caFile: Option<SecretKeyRef>)
    | NoKind

  datatype Output = Output(namespace: string, name: string, kind: OutputKind)

  datatype Flow = Flow(
    namespace: string,
    name: string,
    rootMatch: Option<MatchExpr>,
    filters: seq<Filter>,
    localOutputRefs: seq<string>)

  datatype GlobalOptions = GlobalOptions(statsLevel: Option<int>, statsFreq: Option<int>)

  datatype SyslogNGSpec = SyslogNGSpec(globalOptions: Option<GlobalOptions>)

  datatype Logging = Logging(namespace: string, name: string, syslogNGSpec: Option<SyslogNGSpec>)

  /**
    The secrets the renderer may mount: the data of each secret, keyed by (namespace, name),
    and the directory the mounted files appear under.
   */
  datatype SecretStore = SecretStore(secrets: map<(string, string), map<string, string>>, mountPath: string)

  datatype Input = Input(
    logging: Logging,
    outputs: seq<Output>,
    flows: seq<Flow>,
    sourcePort: int,
    secretStore: SecretStore)

  datatype RenderError =
    | MissingSyslogNGSpec
    | SecretNotFound(namespace: string, name: string, key: string)
    | DanglingReference(namespace: string, flow: string, output: string)
}
