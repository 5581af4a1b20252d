/**
  A flow renders to the blocks it defines (the `filter` block of its root match, if any, then
  one block per chain filter) followed by a `log` block that wires the shared source, the
  built-in namespace match, those blocks and the flow's destinations together, in that order.
 */
module Flows {
  import opened Results
  import opened Text
  import opened Model
  import opened Naming
  import opened Matching
  import opened Filters
  import opened Preamble

  /** The field the JSON parser stores a record's Kubernetes namespace in. */
  const NamespaceField := "json.kubernetes.namespace_name"

  function MatchBlock(f: Flow, m: MatchExpr): NamedBlock {
    NamedBlock("filter", FlowMatchId(f.namespace, f.name), [Translate(m) + ";"])
  }

  /**
    The named blocks a flow defines, in the order they are written and referenced: the root
    match first when there is one, then the filter chain counted from position 0.
   */
  function Definitions(f: Flow): (r: seq<NamedBlock>)
    ensures var offset := if f.rootMatch.Some? then 1 else 0;
      && |r| == offset + |f.filters|
      && (f.rootMatch.Some? ==>
            && r[0].kind == "filter"
            && r[0].id == FlowMatchId(f.namespace, f.name)
            && r[0].body == [Translate(f.rootMatch.value) + ";"])
      && (forall i :: 0 <= i < |f.filters| ==>
            && r[offset + i].kind == Keyword(f.filters[i].op)
            && r[offset + i].id == FilterId(f.namespace, f.name, i, f.filters[i].id)
            && r[offset + i].body == [Statement(f.filters[i].op) + ";"])
  {
    var chain := ChainBlocks(f.namespace, f.name, 0, f.filters);
    match f.rootMatch
    case None => chain
    case Some(m) => [MatchBlock(f, m)] + chain
  }

  /** Keeps only the flow's own records: the built-in inline filter on the namespace field. */
  function NamespaceFilter(namespace: string): seq<string> {
    ["filter {", Indentation + Translate(Regexp(namespace, NamespaceField, "string")) + ";", "};"]
  }

  /** A destination reference names the output in the flow's own namespace. */
  function DestinationRef(flowNamespace: string, outputName: string): string {
    "destination(" + (Quote(OutputId(flowNamespace, outputName)) + ");")
  }

  function DestinationRefs(flowNamespace: string, outputNames: seq<string>): (r: seq<string>)
    ensures |r| == |outputNames|
    ensures forall i :: 0 <= i < |outputNames| ==> r[i] == DestinationRef(flowNamespace, outputNames[i])
  {
    if |outputNames| == 0 then []
    else [DestinationRef(flowNamespace, outputNames[0])] + DestinationRefs(flowNamespace, outputNames[1..])
  }

  /** The `log` block always starts by reading the shared source and keeping its own namespace. */
  function LogHeader(namespace: string): seq<string> {
    ["source(" + (Quote(SourceName) + ");")] + NamespaceFilter(namespace)
  }

  function LogBody(f: Flow): seq<string> {
    LogHeader(f.namespace) + (RefLines(Definitions(f)) + DestinationRefs(f.namespace, f.localOutputRefs))
  }

  function LogLines(f: Flow): seq<string> {
    ["log {"] + Indent(LogBody(f)) + ["};"]
  }

  function FlowLines(f: Flow): seq<string> {
    BlocksLines(Definitions(f)) + LogLines(f)
  }

  function FlowsLines(flows: seq<Flow>): seq<string> {
    if |flows| == 0 then [] else FlowLines(flows[0]) + FlowsLines(flows[1..])
  }

  // ---------------------------------------------------------------------------
  // Destination references

  /** Does some output in `namespace` carry the name `name`? */
  predicate Declares(outputs: seq<Output>, namespace: string, name: string) {
    exists k :: 0 <= k < |outputs| && outputs[k].namespace == namespace && outputs[k].name == name
  }

  /** Looks a reference up among the outputs, front to back. */
  function Lookup(outputs: seq<Output>, namespace: string, name: string): (r: bool)
    ensures r <==> Declares(outputs, namespace, name)
    decreases |outputs|
  {
    if |outputs| == 0 then false
    else if outputs[0].namespace == namespace && outputs[0].name == name then true
    else
      var found := Lookup(outputs[1..], namespace, name);
      assert found ==> Declares(outputs, namespace, name) by {
        if found {
          var k :| 0 <= k < |outputs[1..]| && outputs[1..][k].namespace == namespace && outputs[1..][k].name == name;
          assert outputs[k + 1] == outputs[1..][k];
        }
      }
      assert Declares(outputs, namespace, name) ==> found by {
        if Declares(outputs, namespace, name) {
          var k :| 0 <= k < |outputs| && outputs[k].namespace == namespace && outputs[k].name == name;
          assert outputs[1..][k - 1] == outputs[k];
        }
      }
      found
  }

  /** Every output a flow names is declared in the flow's namespace. */
  predicate RefsResolve(outputs: seq<Output>, f: Flow) {
    forall j :: 0 <= j < |f.localOutputRefs| ==> Declares(outputs, f.namespace, f.localOutputRefs[j])
  }

  predicate AllRefsResolve(outputs: seq<Output>, flows: seq<Flow>) {
    forall i :: 0 <= i < |flows| ==> RefsResolve(outputs, flows[i])
  }

  /** The first of `refs` that names no output in `namespace`. */
  function UnresolvedRef(outputs: seq<Output>, namespace: string, refs: seq<string>): (r: Option<string>)
    ensures r.None? <==> forall j :: 0 <= j < |refs| ==> Declares(outputs, namespace, refs[j])
    ensures r.Some? ==> r.value in refs && !Declares(outputs, namespace, r.value)
    decreases |refs|
  {
    if |refs| == 0 then None
    else if !Lookup(outputs, namespace, refs[0]) then Some(refs[0])
    else
      var r := UnresolvedRef(outputs, namespace, refs[1..]);
      assert r.None? ==> forall j :: 0 <= j < |refs| ==> Declares(outputs, namespace, refs[j]) by {
        if r.None? {
          forall j | 1 <= j < |refs|
            ensures Declares(outputs, namespace, refs[j])
          {
            assert refs[j] == refs[1..][j - 1];
          }
        }
      }
      r
  }

  /** The error `e` reports a reference of flow `f` that names no output in its namespace. */
  predicate Dangles(outputs: seq<Output>, f: Flow, e: RenderError) {
    && e.DanglingReference?
    && e == DanglingReference(f.namespace, f.name, e.output)
    && e.output in f.localOutputRefs
    && !Declares(outputs, f.namespace, e.output)
  }

  /** Some flow of `flows` has the dangling reference `e` reports. */
  predicate DanglesIn(outputs: seq<Output>, flows: seq<Flow>, e: RenderError) {
    exists i :: 0 <= i < |flows| && Dangles(outputs, flows[i], e)
  }

  /**
    The first flow, in declaration order, that names an output missing from its namespace,
    as the error that ends the rendering; none when every reference resolves.
   */
  function DanglingReferenceIn(outputs: seq<Output>, flows: seq<Flow>): (r: Option<RenderError>)
    ensures r.None? <==> AllRefsResolve(outputs, flows)
    ensures r.Some? ==> DanglesIn(outputs, flows, r.value)
    decreases |flows|
  {
    if |flows| == 0 then None
    else
      match UnresolvedRef(outputs, flows[0].namespace, flows[0].localOutputRefs)
      case Some(ref) =>
        assert Dangles(outputs, flows[0], DanglingReference(flows[0].namespace, flows[0].name, ref));
        Some(DanglingReference(flows[0].namespace, flows[0].name, ref))
      case None =>
        var r := DanglingReferenceIn(outputs, flows[1..]);
        assert r.None? ==> AllRefsResolve(outputs, flows) by {
          if r.None? {
            forall i | 1 <= i < |flows|
              ensures RefsResolve(outputs, flows[i])
            {
              assert flows[i] == flows[1..][i - 1];
            }
          }
        }
        assert r.Some? ==> DanglesIn(outputs, flows, r.value) by {
          if r.Some? {
            var i :| 0 <= i < |flows[1..]| && Dangles(outputs, flows[1..][i], r.value);
            assert flows[i + 1] == flows[1..][i];
          }
        }
        r
  }

  /**
    The `log` block lists, in this order: the shared source and the namespace filter, a
    reference to every block the flow defined (same keyword, same name, same order), and the
    destinations in the order the flow names them.
   */
  lemma LogBodyOrder(f: Flow)
    ensures var body := LogBody(f);
      var defs := Definitions(f);
      && |body| == 4 + |defs| + |f.localOutputRefs|
      && body[..4] == LogHeader(f.namespace)
      && (forall i :: 0 <= i < |defs| ==> body[4 + i] == RefLine(defs[i]))
      && (forall j :: 0 <= j < |f.localOutputRefs| ==>
            body[4 + |defs| + j] == DestinationRef(f.namespace, f.localOutputRefs[j]))
  {
    var header := LogHeader(f.namespace);
    var refs := RefLines(Definitions(f));
    var dests := DestinationRefs(f.namespace, f.localOutputRefs);
    assert |header| == 4;
    var body := LogBody(f);
    assert body == header + (refs + dests);
    assert body[..4] == header;
    assert body[4..] == refs + dests;
  }

  /** The root match's block name differs from every chain block's name. */
  lemma MatchIdNotInChain(f: Flow, m: MatchExpr)
    ensures var chain := ChainBlocks(f.namespace, f.name, 0, f.filters);
      forall k :: 0 <= k < |chain| ==> chain[k].id != MatchBlock(f, m).id
  {
    var chain := ChainBlocks(f.namespace, f.name, 0, f.filters);
    forall k | 0 <= k < |chain|
      ensures chain[k].id != MatchBlock(f, m).id
    {
      MatchIdDiffersFromFilterIds(f.namespace, f.name, k, f.filters[k].id);
    }
  }

  /** With unambiguous filter IDs, no two blocks a flow defines share a name. */
  lemma DefinitionIdsDistinct(f: Flow)
    requires UnambiguousIds(f.filters)
    ensures DistinctIds(Definitions(f))
  {
    ChainIdsDistinct(f.namespace, f.name, f.filters);
    if f.rootMatch.Some? {
      MatchIdNotInChain(f, f.rootMatch.value);
      DistinctIdsCons(MatchBlock(f, f.rootMatch.value), ChainBlocks(f.namespace, f.name, 0, f.filters));
    }
  }
}
