/**
  Identifiers of the emitted blocks and paths of mounted secrets. Parts are joined with `_`
  (identifiers) or `-` (secret file names) and nothing is escaped, so uniqueness rests on the
  parts themselves: Kubernetes namespaces never contain `_`, and under that condition the
  output identifier can be taken apart again.
 */
module Naming {
  import opened Results
  import opened Text

  /** The name of an output's `destination` block, also used as its `persist_name`. */
  function OutputId(namespace: string, name: string): string {
    "output_" + namespace + "_" + name
  }

  /** The common beginning of every identifier a flow defines. */
  function FlowPrefix(namespace: string, name: string): string {
    "flow_" + namespace + "_" + name + "_"
  }

  /** The name of the `filter` block holding a flow's root match expression. */
  function FlowMatchId(namespace: string, name: string): string {
    FlowPrefix(namespace, name) + "match"
  }

  /**
    What tells a chain filter apart inside its flow: its explicit ID, verbatim, or else its
    zero-based position in decimal.
   */
  function FilterKey(index: nat, id: string): (r: string)
    ensures id != "" ==> r == id
    ensures id == "" ==> IsDigits(r) && ParseNat(r) == index
  {
    if id != "" then id else ParseNatOfNatToString(index); NatToString(index)
  }

  /** The name of the block a chain filter renders to. */
  function FilterId(namespace: string, name: string, index: nat, id: string): string {
    FlowPrefix(namespace, name) + "filters_" + FilterKey(index, id)
  }

  /** Where a secret key is mounted: `<mountPath>/<namespace>-<secret>-<key>`. */
  function SecretPath(mountPath: string, namespace: string, secret: string, key: string): string {
    mountPath + "/" + namespace + "-" + secret + "-" + key
  }

  /** Takes an output identifier apart into namespace and name, splitting at the first `_`. */
  function ParseOutputId(id: string): Option<(string, string)> {
    if StartsWith(id, "output_") then SplitAt(id[7..], '_') else None
  }

  lemma ParseOutputIdOfOutputId(namespace: string, name: string)
    requires Lacks(namespace, '_')
    ensures ParseOutputId(OutputId(namespace, name)) == Some((namespace, name))
  {
    var id := OutputId(namespace, name);
    assert id[..7] == "output_";
    assert id[7..] == namespace + (['_'] + name);
    SplitAtOf(namespace, '_', name);
  }

  /** Outputs in underscore-free namespaces get pairwise different block names. */
  lemma OutputIdInjective(ns1: string, name1: string, ns2: string, name2: string)
    requires Lacks(ns1, '_') && Lacks(ns2, '_')
    requires OutputId(ns1, name1) == OutputId(ns2, name2)
    ensures ns1 == ns2 && name1 == name2
  {
    ParseOutputIdOfOutputId(ns1, name1);
    ParseOutputIdOfOutputId(ns2, name2);
  }

  /** Without that condition, two different outputs can share a block name. */
  lemma OutputIdCollision()
    ensures OutputId("a_b", "c") == OutputId("a", "b_c")
  {
  }

  /** The match filter of a flow never shares its name with one of the flow's chain filters. */
  lemma MatchIdDiffersFromFilterIds(namespace: string, name: string, index: nat, id: string)
    ensures FlowMatchId(namespace, name) != FilterId(namespace, name, index, id)
  {
    var p := FlowPrefix(namespace, name);
    assert FlowMatchId(namespace, name)[|p|] == 'm';
    assert FilterId(namespace, name, index, id)[|p|] == 'f';
  }

  /** An explicit filter ID that cannot be mistaken for a chain position. */
  predicate IsNonNumericId(id: string) {
    id == "" || !IsDigits(id)
  }

  /**
    Two chain filters of one flow get different block names when their positions differ, no
    explicit ID is all digits, and no two explicit IDs are equal.
   */
  lemma FilterIdsDistinct(namespace: string, name: string, i: nat, idI: string, j: nat, idJ: string)
    requires i != j
    requires IsNonNumericId(idI) && IsNonNumericId(idJ)
    requires idI != "" && idJ != "" ==> idI != idJ
    ensures FilterId(namespace, name, i, idI) != FilterId(namespace, name, j, idJ)
  {
    var p := FlowPrefix(namespace, name) + "filters_";
    var kI, kJ := FilterKey(i, idI), FilterKey(j, idJ);
    if idI == "" && idJ == "" {
      if kI == kJ {
        NatToStringInjective(i, j);
      }
    }
    assert kI != kJ;
    assert (p + kI)[|p|..] == kI;
    assert (p + kJ)[|p|..] == kJ;
  }

  /** A mounted secret is a file directly inside the mount directory. */
  lemma SecretPathInMountDirectory(mountPath: string, namespace: string, secret: string, key: string)
    requires Lacks(namespace, '/') && Lacks(secret, '/') && Lacks(key, '/')
    ensures var p := SecretPath(mountPath, namespace, secret, key);
      StartsWith(p, mountPath + "/") && Lacks(p[|mountPath| + 1..], '/')
  {
    var p := SecretPath(mountPath, namespace, secret, key);
    var file := namespace + "-" + secret + "-" + key;
    assert p == mountPath + "/" + file;
    assert p[|mountPath| + 1..] == file;
    assert p[..|mountPath| + 1] == mountPath + "/";
    forall i | 0 <= i < |file|
      ensures file[i] != '/'
    {
      if i < |namespace| {
        assert file[i] == namespace[i];
      } else if i == |namespace| {
      } else if i < |namespace| + 1 + |secret| {
        assert file[i] == secret[i - |namespace| - 1];
      } else if i == |namespace| + 1 + |secret| {
      } else {
        assert file[i] == key[i - |namespace| - 2 - |secret|];
      }
    }
  }
}
