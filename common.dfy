/**
 * The controller reference that discovery produces and the scaler consumes,
 * the kind names the plugin recognises, and the canonical
 * `kind/namespace/name` key under which references are deduplicated.
 */
module Common {

  /** A top-level controller (or a standalone pod) identified by kind, namespace and name. */
  datatype ControllerRef = ControllerRef(kind: string, namespace: string, name: string)

  const KindPod: string := "Pod"
  const KindReplicaSet: string := "ReplicaSet"
  const KindDeployment: string := "Deployment"
  const KindStatefulSet: string := "StatefulSet"
  const KindDaemonSet: string := "DaemonSet"

  /** `a + "/" + b`, the joining that `fmt.Sprintf("%s/%s", a, b)` performs. */
  function Join(a: string, b: string): (s: string)
    ensures |s| == |a| + 1 + |b| && s[|a|] == '/'
    ensures s[..|a|] == a && s[|a| + 1..] == b
  {
    a + "/" + b
  }

  /** The deduplication key `kind/namespace/name`. */
  function ControllerKey(c: ControllerRef): string
  {
    Join(c.kind, Join(c.namespace, c.name))
  }

  /** Kubernetes kinds, namespaces and object names never contain a slash. */
  predicate NoSlash(s: string)
  {
    '/' !in s
  }

  predicate WellNamed(c: ControllerRef)
  {
    NoSlash(c.kind) && NoSlash(c.namespace) && NoSlash(c.name)
  }

  /** Splitting at the first slash: a slash-free prefix is recovered uniquely. */
  lemma JoinInjective(a: string, b: string, a': string, b': string)
    requires NoSlash(a) && NoSlash(a')
    requires Join(a, b) == Join(a', b')
    ensures a == a' && b == b'
  {
  }

  /** With well-formed names the string key is exactly the three-field identity. */
  lemma ControllerKeyInjective(c: ControllerRef, d: ControllerRef)
    requires WellNamed(c) && WellNamed(d)
    ensures ControllerKey(c) == ControllerKey(d) <==> c == d
  {
    if ControllerKey(c) == ControllerKey(d) {
      JoinInjective(c.kind, Join(c.namespace, c.name), d.kind, Join(d.namespace, d.name));
      JoinInjective(c.namespace, c.name, d.namespace, d.name);
    }
  }

  /** Appending to a log in two steps is appending both parts at once. */
  lemma AppendTwice<T>(log: seq<T>, a: seq<T>, b: seq<T>)
    ensures log + a + b == log + (a + b)
  {
  }
}
