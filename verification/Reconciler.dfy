/** The reconciler in the form it is written in: methods that read a copy of the
    object, change the copy in place, and send requests one after the other.
    Each method is proved to do exactly what the machine does. */
module Reconciler {
  import opened Domain
  import opened Stores
  import opened Controller
  import opened SecretContents
  import opened Answers

  /** What the controller gets to see of a request: a failed one and one whose
      reply is lost look the same. */
  function Answer(p: Params, w: World, c: Call, inp: Input): (World, Reply) {
    var (served, reply) := Serve(p, w, c, inp);
    match inp.outcome
    case Success => (served, reply)
    case Fails => (w, Unavailable)
    case ReplyLost => (served, Unavailable)
  }

  /** The clients the reconciler holds, with the stores behind them. */
  class Api {
    const p: Params
    const script: nat -> Input
    var w: World
    var pos: nat

    constructor (p: Params, script: nat -> Input, w: World)
      ensures this.p == p && this.script == script && this.w == w && pos == 0
    {
      this.p, this.script, this.w, pos := p, script, w, 0;
    }

    /** How a reconcile that waits at k will leave the stores, and how it ends. */
    ghost function Outcome(k: Worker): (World, Worker)
      reads this
    {
      Exec(p, w, k, script, pos)
    }

    /** Sends the request of location k and gets what the stores answer. The rest
        of the reconcile is that of the location the reply leads to. */
    method Ask(c: Call, ghost k: Worker) returns (r: Reply)
      requires c == RequestOf(p, k) && !Stopped(k)
      modifies this
      ensures pos == old(pos) + 1
      ensures (w, r) == Answer(p, old(w), c, script(old(pos)))
      ensures old(Outcome(k)) == Outcome(Resume(p, k, r, script(old(pos))))
    {
      Unroll(p, w, k, script, pos);
      var a := Answer(p, w, c, script(pos));
      w, r, pos := a.0, a.1, pos + 1;
    }

    /** The same, where it does not matter what becomes of the stores. */
    method Send(c: Call, ghost k: Worker) returns (r: Reply)
      requires c == RequestOf(p, k) && !Stopped(k)
      modifies this
      ensures pos == old(pos) + 1
      ensures old(Outcome(k)) == Outcome(Resume(p, k, r, script(old(pos))))
    {
      r := Ask(c, k);
    }
  }

  /** The local variable `ncp`: a copy of the stored object, edited in place and
      refreshed by successful writes. */
  class LocalCopy {
    var rv: nat
    var finalizer: bool
    var otherFinalizers: bool
    var deleting: bool
    var spec: Spec
    var status: Status

    function Value(): ControlPlane
      reads this
    {
      ControlPlane(rv, finalizer, otherFinalizers, deleting, spec, status)
    }

    constructor (o: ControlPlane)
      ensures Value() == o
    {
      rv, finalizer, otherFinalizers := o.rv, o.finalizer, o.otherFinalizers;
      deleting, spec, status := o.deleting, o.spec, o.status;
    }

    method Refresh(o: ControlPlane)
      modifies this
      ensures Value() == o
    {
      rv, finalizer, otherFinalizers := o.rv, o.finalizer, o.otherFinalizers;
      deleting, spec, status := o.deleting, o.spec, o.status;
    }
  }

  lemma Unroll(p: Params, w: World, k: Worker, script: nat -> Input, pos: nat)
    requires !Stopped(k)
    ensures var (w', r) := Answer(p, w, RequestOf(p, k), script(pos));
            Exec(p, w, k, script, pos) == Exec(p, w', Resume(p, k, r, script(pos)), script, pos + 1)
  {
  }

  /** resolvePlaneID */
  method ResolvePlaneID(api: Api, ncp: LocalCopy) returns (id: Option<string>)
    modifies api, ncp
    ensures var start := old(api.Outcome(EnterNormal(ncp.Value())));
            && (id.Some? ==> start == api.Outcome(GettingPlane(ncp.Value(), id.value)))
            && (id.None? ==> start == (api.w, Done(Failed)))
  {
    if ncp.spec.planeID != "" {
      return Some(ncp.spec.planeID);
    }
    if ncp.status.planeID != "" {
      return Some(ncp.status.planeID);
    }
    ghost var o := ncp.Value();
    var r := api.Send(CreatePlane(api.p.name, ncp.spec.version), CreatingPlane(o));
    if !r.PlaneIs? {
      if !r.Conflict? {
        return None;
      }
      r := api.Send(GetPlaneByName(api.p.name), LookingUp(o));
      if !r.PlaneIs? {
        return None;
      }
    }
    var found := r.plane.id;
    var ok := PersistPlaneID(api, ncp, found);
    return if ok then Some(found) else None;
  }

  /** The status write of resolvePlaneID. */
  method PersistPlaneID(api: Api, ncp: LocalCopy, id: string) returns (ok: bool)
    modifies api, ncp
    ensures var start := old(api.Outcome(PersistingID(ncp.Value(), id)));
            && (ok ==> start == api.Outcome(GettingPlane(ncp.Value(), id)))
            && (!ok ==> start == (api.w, Done(Failed)))
  {
    ghost var o := ncp.Value();
    ncp.status := ncp.status.(planeID := id);
    var r := api.Send(PutStatus(ncp.Value()), PersistingID(o, id));
    if !r.Object? {
      return false;
    }
    ncp.Refresh(r.obj);
    return true;
  }

  /** reconcileDelete */
  method ReconcileDelete(api: Api, ncp: LocalCopy) returns (end: End)
    modifies api, ncp
    ensures (api.w, Done(end)) == old(api.Outcome(EnterDelete(ncp.Value())))
  {
    ghost var o := ncp.Value();
    if ncp.status.planeID != "" {
      var r := api.Send(DeletePlane(ncp.status.planeID), DeletingPlane(o));
      if !r.Ack? && !r.Absent? {
        return Failed;
      }
    }
    ncp.finalizer := false;
    var r := api.Send(PutObject(ncp.Value()), RemovingFinalizer(o));
    return if r.Object? then Wrote else Failed;
  }

  /** reconcileKubeconfig, with the kubeconfig at hand. */
  method WriteKubeconfig(api: Api, ghost c: Ctx, kc: Bytes) returns (ok: bool)
    modifies api
    ensures var start := old(api.Outcome(ReadingKubeconfigSecret(c, kc)));
            && (ok ==> start == api.Outcome(CheckingCa(c)))
            && (!ok ==> start == (api.w, Done(Failed)))
    ensures ok ==>
              var place := SecretKey(api.p.cluster.namespace, api.p.cluster.name + "-kubeconfig");
              KubeconfigHolds(api.p, Lookup(Cur(api.w).secrets, place), kc)
  {
    var secret := KubeconfigSecret(api.p, kc);
    var key := KubeconfigKey(api.p.cluster);
    var r := api.Send(GetSecret(key), ReadingKubeconfigSecret(c, kc));
    if r.Absent? {
      r := api.Ask(CreateSecret(key, secret), CreatingKubeconfigSecret(c, kc));
      return r.Ack?;
    }
    if !r.SecretIs? {
      return false;
    }
    var existing := r.secret;
    var prior := existing;
    existing := existing.(data := secret.data);
    existing := existing.(labels := secret.labels);
    r := api.Ask(PutSecret(key, existing), UpdatingKubeconfigSecret(c, kc, prior));
    return r.Ack?;
  }

  /** reconcileKubeconfig */
  method ReconcileKubeconfig(api: Api, ncp: LocalCopy, ghost id: string, ghost plane: Plane) returns (ok: bool)
    modifies api
    ensures var c := Ctx(ncp.Value(), id, plane);
            var start := old(api.Outcome(FetchingKubeconfig(c)));
            && (ok ==> start == api.Outcome(CheckingCa(c)))
            && (!ok ==> start == (api.w, Done(Failed)))
    ensures ok ==>
              var served := KubeconfigReply(api.p, old(api.w).svc, ncp.status.planeID);
              var place := SecretKey(api.p.cluster.namespace, api.p.cluster.name + "-kubeconfig");
              served.KubeconfigIs? && KubeconfigHolds(api.p, Lookup(Cur(api.w).secrets, place), served.bytes)
  {
    ghost var c := Ctx(ncp.Value(), id, plane);
    var r := api.Ask(GetKubeconfig(ncp.status.planeID), FetchingKubeconfig(c));
    if !r.KubeconfigIs? {
      return false;
    }
    ok := WriteKubeconfig(api, c, r.bytes);
  }

  /** reconcileCASecret, once the secret is known not to exist. */
  method CreateCASecret(api: Api, ghost c: Ctx, crt: Bytes, key: Bytes) returns (ok: bool)
    modifies api
    ensures var start := old(api.Outcome(CreatingCa(c, crt, key)));
            && (ok ==> start == api.Outcome(Committing(c)))
            && (!ok ==> start == (api.w, Done(Failed)))
    ensures ok ==>
              var place := SecretKey(api.p.cluster.namespace, api.p.cluster.name + "-ca");
              CaLands(api.p, None, Lookup(Cur(api.w).secrets, place), crt, key)
  {
    var r := api.Ask(CreateSecret(CaKey(api.p.cluster), CaSecret(api.p, crt, key)), CreatingCa(c, crt, key));
    return r.Ack?;
  }

  /** reconcileCASecret, from the second look at the secret on. */
  method WriteCASecret(api: Api, ghost c: Ctx, seen: Option<Secret>, crt: Bytes, key: Bytes) returns (ok: bool)
    modifies api
    ensures var start := old(api.Outcome(RecheckingCa(c, seen, crt, key)));
            && (ok ==> start == api.Outcome(Committing(c)))
            && (!ok ==> start == (api.w, Done(Failed)))
    ensures ok ==>
              var place := SecretKey(api.p.cluster.namespace, api.p.cluster.name + "-ca");
              CaHolds(api.p, Lookup(Cur(api.w).secrets, place), crt, key)
  {
    var secretKey := CaKey(api.p.cluster);
    var secret := CaSecret(api.p, crt, key);
    var existing := seen;
    var r := api.Send(GetSecret(secretKey), RecheckingCa(c, seen, crt, key));
    if r.Absent? {
      ok := CreateCASecret(api, c, crt, key);
      return;
    }
    if r.SecretIs? {
      existing := Some(r.secret);
    }
    if existing.None? {
      return false;
    }
    var prior := existing.value;
    if prior.kind != secret.kind {
      r := api.Send(DeleteSecret(secretKey), DroppingCa(c, crt, key));
      if !r.Ack? {
        return false;
      }
      ok := CreateCASecret(api, c, crt, key);
      return;
    }
    var refilled := prior.(data := secret.data);
    refilled := refilled.(labels := secret.labels);
    r := api.Ask(PutSecret(secretKey, refilled), UpdatingCa(c, crt, key, prior));
    return r.Ack?;
  }

  /** The certificate and the key for a CA secret that needs them. */
  method DrawCA(api: Api, ncp: LocalCopy, ghost c: Ctx, existing: Option<Secret>) returns (ok: bool, crt: Bytes, key: Bytes)
    requires c.ncp == ncp.Value()
    modifies api
    ensures var start := old(api.Outcome(FetchingCa(c, existing)));
            && (ok ==> start == api.Outcome(RecheckingCa(c, existing, crt, key)))
            && (!ok ==> start == (api.w, Done(Failed)))
    ensures ok ==>
              var inp := api.script(old(api.pos));
              var served := KubeconfigReply(api.p, old(api.w).svc, ncp.status.planeID);
              && served.KubeconfigIs? && api.p.parse(served.bytes).Some?
              && inp.pick in api.p.parse(served.bytes).value
              && crt == api.p.parse(served.bytes).value[inp.pick] && key == inp.key
  {
    ok, crt, key := false, [], [];
    var inp := api.script(api.pos);
    var r := api.Ask(GetKubeconfig(ncp.status.planeID), FetchingCa(c, existing));
    if !r.KubeconfigIs? {
      return;
    }
    crt := PickCa(api.p, r.bytes, inp.pick);
    if crt == [] {
      return;
    }
    key := inp.key;
    ok := key != [];
  }

  /** reconcileCASecret */
  method ReconcileCASecret(api: Api, ncp: LocalCopy, ghost id: string, ghost plane: Plane) returns (ok: bool)
    modifies api
    ensures var c := Ctx(ncp.Value(), id, plane);
            var start := old(api.Outcome(CheckingCa(c)));
            && (ok ==> start == api.Outcome(Committing(c)))
            && (!ok ==> start == (api.w, Done(Failed)))
    ensures ok ==>
              var place := SecretKey(api.p.cluster.namespace, api.p.cluster.name + "-ca");
              var shown := Lookup(Read(old(api.w), api.script(old(api.pos)).lag).secrets, place);
              if shown.Some? && DataAt(shown.value, "tls.key") != [] then api.w == old(api.w)
              else
                var inp := api.script(old(api.pos) + 1);
                var served := KubeconfigReply(api.p, old(api.w).svc, ncp.status.planeID);
                && served.KubeconfigIs? && api.p.parse(served.bytes).Some?
                && inp.pick in api.p.parse(served.bytes).value
                && CaHolds(api.p, Lookup(Cur(api.w).secrets, place), api.p.parse(served.bytes).value[inp.pick], inp.key)
  {
    ghost var c := Ctx(ncp.Value(), id, plane);
    var existing: Option<Secret> := None;
    var r := api.Ask(GetSecret(CaKey(api.p.cluster)), CheckingCa(c));
    if r.SecretIs? {
      existing := Some(r.secret);
      if HasKey(existing) {
        return true;
      }
    } else if !r.Absent? {
      return false;
    }
    var drawn, crt, key := DrawCA(api, ncp, c, existing);
    if !drawn {
      return false;
    }
    ok := WriteCASecret(api, c, existing, crt, key);
  }

  /** The endpoint part of reconcileNormal. */
  method SurfaceEndpoint(api: Api, ncp: LocalCopy, id: string, plane: Plane) returns (ok: bool)
    requires plane.status == READY && plane.version == ncp.spec.version
    modifies api, ncp
    ensures var start := old(api.Outcome(WithPlaneRead(ncp.Value(), id, plane)));
            && (ok ==> start == api.Outcome(FetchingKubeconfig(Ctx(ncp.Value(), id, plane))))
            && (!ok ==> start == (api.w, Done(Failed)))
    ensures old(ncp.spec.endpoint) == Endpoint(plane.endpoint.host, ToInt32(plane.endpoint.port)) ==> ok && api.w == old(api.w)
  {
    var desired := Endpoint(plane.endpoint.host, ToInt32(plane.endpoint.port));
    if ncp.spec.endpoint != desired {
      ghost var before := Ctx(ncp.Value(), id, plane);
      ncp.spec := ncp.spec.(endpoint := desired);
      var r := api.Send(PutObject(ncp.Value()), WritingEndpoint(before));
      if !r.Object? {
        return false;
      }
      ncp.Refresh(r.obj);
    }
    return true;
  }

  /** The final status write of reconcileNormal. */
  method CommitStatus(api: Api, ncp: LocalCopy, id: string, plane: Plane) returns (end: End)
    modifies api, ncp
    ensures (api.w, Done(end)) == old(api.Outcome(Committing(Ctx(ncp.Value(), id, plane))))
    ensures end == Failed || end == Requeue(60)
    ensures end == Requeue(60) <==>
              && api.script(old(api.pos)).outcome.Success?
              && Cur(old(api.w)).obj.Some? && Cur(old(api.w)).obj.value.rv == old(ncp.rv)
    ensures end == Requeue(60) && Cur(api.w).obj.Some? ==>
              Cur(api.w).obj.value.status == Status(true, true, id, plane.version)
  {
    ghost var before := Ctx(ncp.Value(), id, plane);
    ncp.status := Status(true, true, id, plane.version);
    var r := api.Ask(PutStatus(ncp.Value()), Committing(before));
    return if r.Object? then Requeue(60) else Failed;
  }

  /** reconcileNormal from the endpoint on. */
  method Publish(api: Api, ncp: LocalCopy, id: string, plane: Plane) returns (end: End)
    requires plane.status == READY && plane.version == ncp.spec.version
    modifies api, ncp
    ensures (api.w, Done(end)) == old(api.Outcome(WithPlaneRead(ncp.Value(), id, plane)))
  {
    var ok := SurfaceEndpoint(api, ncp, id, plane);
    if !ok {
      return Failed;
    }
    ok := ReconcileKubeconfig(api, ncp, id, plane);
    if !ok {
      return Failed;
    }
    ok := ReconcileCASecret(api, ncp, id, plane);
    if !ok {
      return Failed;
    }
    end := CommitStatus(api, ncp, id, plane);
  }

  /** reconcileNormal */
  method ReconcileNormal(api: Api, ncp: LocalCopy) returns (end: End)
    modifies api, ncp
    ensures (api.w, Done(end)) == old(api.Outcome(EnterNormal(ncp.Value())))
  {
    var planeID := ResolvePlaneID(api, ncp);
    if planeID.None? {
      return Failed;
    }
    var id := planeID.value;
    var r := api.Send(GetPlane(id), GettingPlane(ncp.Value(), id));
    if !r.PlaneIs? {
      return Failed;
    }
    var plane := r.plane;
    if plane.status != READY {
      return Requeue(15);
    }
    if plane.version != ncp.spec.version {
      r := api.Send(UpdatePlane(id, ncp.spec.version), Upgrading(ncp.Value(), id));
      return if r.Ack? then Requeue(30) else Failed;
    }
    end := Publish(api, ncp, id, plane);
  }

  /** Reconcile: the method and the machine leave the same stores behind and
      end the same way, whatever the environment decides about each request. */
  method Reconcile(api: Api) returns (end: End)
    modifies api
    ensures (api.w, Done(end)) == old(api.Outcome(Reading))
    ensures var answer := GateAnswer(old(api.w), api.script(old(api.pos)), api.script(old(api.pos) + 1));
            && (answer.Some? ==> end == answer.value && api.w == old(api.w))
            && (answer.None? ==> !EndsAtGate(Done(end)))
  {
    GatedReconcile(api.p, api.w, api.script, api.pos);
    var r := api.Send(GetObject, Reading);
    if r.Absent? {
      return Gone;
    }
    if !r.Object? {
      return Failed;
    }
    var ncp := new LocalCopy(r.obj);
    r := api.Send(FindOwner, CheckingOwner(ncp.Value()));
    if r.NotOwned? {
      return Unowned;
    }
    if r.IsPaused? {
      return Paused;
    }
    if !r.Ack? {
      return Failed;
    }
    if !ncp.finalizer {
      ghost var before := ncp.Value();
      ncp.finalizer := true;
      r := api.Send(PutObject(ncp.Value()), AddingFinalizer(before));
      return if r.Object? then Wrote else Failed;
    }
    r := api.Send(Authenticate, Authenticating(ncp.Value()));
    if !r.Ack? {
      return Failed;
    }
    if ncp.deleting {
      end := ReconcileDelete(api, ncp);
      return;
    }
    end := ReconcileNormal(api, ncp);
  }
}
