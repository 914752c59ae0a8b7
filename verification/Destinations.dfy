/** Where undisturbed reconciles end, field by field: what ThreeReconcilesConverge
    and FourReconcilesMove mean for somebody who reads the two stores. */
module Destinations {
  import opened Domain
  import opened Stores
  import opened Controller
  import opened Secrets
  import opened Convergence
  import opened Settling
  import opened Moves

  /** The object reports the plane h as ready, and the service holds h. */
  ghost predicate Reported(w0: World, w: World, h: Hosted) {
    && Cur(w0).obj.Some? && Cur(w).obj.Some?
    && var was, now := Cur(w0).obj.value, Cur(w).obj.value;
       && now.status.ready && now.status.initialized
       && now.status.planeID == h.plane.id && now.status.version == was.spec.version
       && now.spec.version == was.spec.version && now.spec.planeID == was.spec.planeID
       && now.spec.endpoint.host == h.plane.endpoint.host
       && now.spec.endpoint.port == ToInt32(h.plane.endpoint.port)
       && h.plane.status == "ready" && h.plane.version == was.spec.version
       && h.plane.id in w.svc.planes && w.svc.planes[h.plane.id] == h
  }

  ghost predicate KubeconfigStored(p: Params, w: World, kc: Bytes) {
    var key := SecretKey(p.cluster.namespace, p.cluster.name + "-kubeconfig");
    && key in Cur(w).secrets
    && Cur(w).secrets[key].data == map["value" := kc]
    && Cur(w).secrets[key].labels == map["cluster.x-k8s.io/cluster-name" := p.cluster.name]
  }

  /** A CA secret that had a key kept its certificate, type, owner and labels; any
      other one now has the certificate crt and a key. */
  ghost predicate CaStored(p: Params, w0: World, w: World, crt: Bytes) {
    var key := SecretKey(p.cluster.namespace, p.cluster.name + "-ca");
    && key in Cur(w).secrets
    && var now := Cur(w).secrets[key];
       && DataAt(now, "tls.key") != []
       && if key in Cur(w0).secrets && DataAt(Cur(w0).secrets[key], "tls.key") != [] then
            var was := Cur(w0).secrets[key];
            && DataAt(now, "tls.crt") == DataAt(was, "tls.crt")
            && now.kind == was.kind && now.owner == was.owner && now.labels == was.labels
          else
            && DataAt(now, "tls.crt") == crt
            && now.kind == "cluster.x-k8s.io/secret"
            && now.labels == map["cluster.x-k8s.io/cluster-name" := p.cluster.name]
  }

  lemma WithoutKey(s: Secret)
    ensures "tls.crt" in Keyless(s).data <==> "tls.crt" in s.data
    ensures DataAt(Keyless(s), "tls.crt") == DataAt(s, "tls.crt")
  {
  }

  /** The CA part of a goal that is shown. */
  lemma CaShown(p: Params, w0: World, w: World, crt: Bytes)
    requires CaAt(p, Cur(w)).Some? && HasKey(CaAt(p, Cur(w)))
    requires Keyless(CaAt(p, Cur(w)).value) == GoalCaSecret(p, Cur(w0), crt)
    ensures CaStored(p, w0, w, crt)
  {
    SecretKeysApart(p.cluster, p.cluster);
    WithoutKey(CaAt(p, Cur(w)).value);
    if CaAt(p, Cur(w0)).Some? {
      WithoutKey(CaAt(p, Cur(w0)).value);
    }
  }

  lemma KubeconfigShown(p: Params, c0: Snapshot, w: World, kc: Bytes)
    requires KubeconfigAt(p, Cur(w)).Some?
    requires Faced(KubeconfigAt(p, Cur(w)).value) == GoalKubeconfigSecret(p, c0, kc)
    ensures KubeconfigStored(p, w, kc)
  {
    SecretKeysApart(p.cluster, p.cluster);
  }

  lemma GoalShown(p: Params, w0: World, w: World, crt: Bytes, h: Hosted)
    requires Cur(w0).obj.Some? && GoalPlane(p, w0) == Some(h) && h.plane.status == "ready"
    requires GoalOf(p, w0, crt).Some?
    requires Shown(p, w).Some? && Shown(p, w).value.spec == GoalOf(p, w0, crt).value.spec
    requires Shown(p, w).value.status == GoalOf(p, w0, crt).value.status
    requires Shown(p, w).value.planes == GoalOf(p, w0, crt).value.planes
    ensures Reported(w0, w, h)
  {
  }

  /** Three undisturbed reconciles of a client that can do what the world asks
      for, read off the stores: h is the plane the object stands for, in the
      version it wants, and kc the kubeconfig the service hands out for it. */
  lemma ThreeReconcilesStore(p: Params, w: World, crt: Bytes, inps: seq<Input>) returns (h: Hosted, kc: Bytes)
    requires Serviceable(p, w, crt) && Capable(p, w) && AllCalm(p, GoalOf(p, w, crt), inps) && |inps| >= 3
    ensures GoalPlane(p, w) == Some(h)
    ensures var o := Cur(w).obj.value;
            && (o.spec.planeID != "" ==> h.plane.id == o.spec.planeID)
            && (o.spec.planeID == "" && o.status.planeID != "" ==> h.plane.id == o.status.planeID)
            && (o.spec.planeID == "" && o.status.planeID == "" ==> h.plane.name == p.name)
    ensures kc == if p.kubeconfigs.Anyone? then p.kubeconfigs.bytes else h.kubeconfig
    ensures var w' := Reconciles(p, w, inps);
            Reported(w, w', h) && KubeconfigStored(p, w', kc) && CaStored(p, w, w', crt)
  {
    var w' := Reconciles(p, w, inps);
    h := GoalPlane(p, w).value;
    kc := GoalKubeconfig(p, h);
    ThreeReconcilesConverge(p, w, crt, inps);
    GoalShown(p, w, w', crt, h);
    KubeconfigShown(p, Cur(w), w', kc);
    CaShown(p, w, w', crt);
  }

  /** Four undisturbed reconciles of an object moved off the plane on record: the
      kubeconfig is the new plane's, the certificate the old plane's. */
  lemma FourReconcilesStore(p: Params, w: World, crt: Bytes, former: string, oldCrt: Bytes, inps: seq<Input>) returns (h: Hosted)
    requires Promising(p, w, crt) && Moving(p, w, former) && FormerUsable(p, w, former, oldCrt)
    requires CalmMove(p, w, crt, former, oldCrt, inps) && |inps| >= 4
    requires former in w.svc.planes && (Drifts(p, w) ==> p.errors.updateSupported)
    ensures GoalPlane(p, w) == Some(h) && h.plane.id == Cur(w).obj.value.spec.planeID
    ensures var w' := Reconciles(p, w, inps);
            Reported(w, w', h) && KubeconfigStored(p, w', h.kubeconfig) && CaStored(p, w, w', oldCrt)
  {
    var w' := Reconciles(p, w, inps);
    h := GoalPlane(p, w).value;
    FourReconcilesMove(p, w, crt, former, oldCrt, inps);
    GoalShown(p, w, w', crt, h);
    KubeconfigShown(p, Cur(w), w', h.kubeconfig);
    CaShown(p, w, w', oldCrt);
  }
}
