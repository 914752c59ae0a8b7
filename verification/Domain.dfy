/** The records that the controller, the Kubernetes store and the noplane.io
    service exchange. */
module Domain {

  newtype byte = x: int | 0 <= x < 256
  type Bytes = seq<byte>

  datatype Option<+T> = None | Some(value: T)

  datatype Endpoint = Endpoint(host: string, port: int)

  datatype Spec = Spec(version: string, endpoint: Endpoint, planeID: string)

  datatype Status = Status(ready: bool, initialized: bool, planeID: string, version: string)

  const EMPTY_STATUS := Status(false, false, "", "")

  /** The NoPlaneControlPlane object. `finalizer` is the controller's own
      finalizer; `otherFinalizers` says whether anyone else holds one. */
  datatype ControlPlane = ControlPlane(
    rv: nat,
    finalizer: bool,
    otherFinalizers: bool,
    deleting: bool,
    spec: Spec,
    status: Status)

  datatype SecretKey = SecretKey(namespace: string, name: string)

  datatype Secret = Secret(
    rv: nat,
    kind: string,
    owner: Option<string>,
    labels: map<string, string>,
    data: map<string, Bytes>)

  /** A hosted control plane as the noplane.io client reports it. */
  datatype Plane = Plane(id: string, name: string, status: string, version: string, endpoint: Endpoint)

  datatype ClusterRef = ClusterRef(namespace: string, name: string)

  const READY := "ready"
  const OPAQUE := "Opaque"
  const CLUSTER_SECRET := "cluster.x-k8s.io/secret"
  const NAME_LABEL := "cluster.x-k8s.io/cluster-name"

  function KubeconfigKey(c: ClusterRef): SecretKey {
    SecretKey(c.namespace, c.name + "-kubeconfig")
  }

  function CaKey(c: ClusterRef): SecretKey {
    SecretKey(c.namespace, c.name + "-ca")
  }

  /** Go's conversion int32(x): keep the low 32 bits, read as two's complement. */
  function ToInt32(x: int): (r: int)
    ensures -0x8000_0000 <= r < 0x8000_0000
  {
    (x + 0x8000_0000) % 0x1_0000_0000 - 0x8000_0000
  }

  /** The endpoint the controller publishes for a plane. */
  function Desired(p: Plane): Endpoint {
    Endpoint(p.endpoint.host, ToInt32(p.endpoint.port))
  }

  function DataAt(s: Secret, field: string): Bytes {
    if field in s.data then s.data[field] else []
  }

  /** The controller leaves a CA secret alone exactly when this holds. */
  predicate HasKey(s: Option<Secret>) {
    s.Some? && DataAt(s.value, "tls.key") != []
  }

  function Lookup<K, V>(m: map<K, V>, k: K): Option<V> {
    if k in m then Some(m[k]) else None
  }

  /** The conversion to int32 loses nothing exactly on the int32 range; elsewhere
      it keeps the low 32 bits. */
  lemma Int32Exact(x: int)
    ensures ToInt32(x) == x <==> -0x8000_0000 <= x < 0x8000_0000
    ensures (x - ToInt32(x)) % 0x1_0000_0000 == 0
  {
    if -0x8000_0000 <= x < 0x8000_0000 {
      assert (x + 0x8000_0000) / 0x1_0000_0000 == 0;
    }
  }

  lemma AppendInjective(a: string, b: string, suffix: string)
    requires a + suffix == b + suffix
    ensures a == b
  {
    assert |a| == |b|;
    assert (a + suffix)[..|a|] == a;
    assert (b + suffix)[..|b|] == b;
  }

  /** The two secrets of a cluster lie in its namespace, under its name with a
      suffix each. Two clusters never share a secret, and no kubeconfig secret is
      anyone's CA secret. */
  lemma SecretKeysApart(c: ClusterRef, d: ClusterRef)
    ensures KubeconfigKey(c) == SecretKey(c.namespace, c.name + "-kubeconfig")
    ensures CaKey(c) == SecretKey(c.namespace, c.name + "-ca")
    ensures KubeconfigKey(c) != CaKey(d)
    ensures KubeconfigKey(c) == KubeconfigKey(d) <==> c == d
    ensures CaKey(c) == CaKey(d) <==> c == d
  {
    var k, a := c.name + "-kubeconfig", d.name + "-ca";
    assert k[|k| - 1] == 'g' && a[|a| - 1] == 'a';
    if KubeconfigKey(c) == KubeconfigKey(d) {
      AppendInjective(c.name, d.name, "-kubeconfig");
    }
    if CaKey(c) == CaKey(d) {
      AppendInjective(c.name, d.name, "-ca");
    }
  }
}
