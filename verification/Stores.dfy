/** The two stores the controller works between: the Kubernetes API server and
    the noplane.io service. Their operations are the contract the controller
    relies on. */
module Stores {
  import opened Domain

  /** One committed state of the Kubernetes store. */
  datatype Snapshot = Snapshot(obj: Option<ControlPlane>, secrets: map<SecretKey, Secret>)

  /** Every state the store has been in, oldest first. A client that reads
      through a cache may be answered from any of them. */
  type Log = s: seq<Snapshot> | |s| > 0 witness [Snapshot(None, map[])]

  /** A plane with the kubeconfig the service hands out for it. */
  datatype Hosted = Hosted(plane: Plane, kubeconfig: Bytes)

  /** What the service will answer to the next successful creation. */
  datatype Draft = Draft(id: string, status: string, endpoint: Endpoint, kubeconfig: Bytes)

  /** Planes by ID, IDs by plane name, and every ID ever handed out together
      with the name it was handed out for. */
  datatype Service = Service(
    planes: map<string, Hosted>,
    names: map<string, string>,
    issued: map<string, string>,
    next: Option<Draft>)

  /** The mutating requests of one controller that reached the service. */
  datatype Event =
    | Created(id: string)
    | CreateConflict
    | Upgraded(id: string)
    | Deleted(id: string)
    | DeleteMissed(id: string)

  /** `born` is the place of the object's creation in the log, once it happened. */
  datatype World = World(rev: nat, log: Log, svc: Service, events: seq<Event>, born: Option<nat>)

  function Cur(w: World): Snapshot {
    w.log[|w.log| - 1]
  }

  /** The snapshot `lag` commits ago, or the oldest one. */
  function Read(w: World, lag: nat): Snapshot {
    if lag < |w.log| then w.log[|w.log| - 1 - lag] else w.log[0]
  }

  function Commit(w: World, s: Snapshot): World {
    w.(rev := w.rev + 1, log := w.log + [s])
  }

  // ---- Kubernetes API server ----

  /** What is left of a stored object once its finalizers are looked at. */
  function Survives(o: ControlPlane): Option<ControlPlane> {
    if o.deleting && !o.finalizer && !o.otherFinalizers then None else Some(o)
  }

  /** Replaces the stored object, under a new resourceVersion; a write that
      changes nothing is not committed. */
  function StoreObject(w: World, was: ControlPlane, now: ControlPlane): World {
    if now == was then w
    else Commit(w, Cur(w).(obj := Survives(now.(rv := w.rev + 1))))
  }

  function Stamped(w: World, was: ControlPlane, now: ControlPlane): ControlPlane {
    if now == was then was else now.(rv := w.rev + 1)
  }

  /** Update is refused on a missing object, on a stale resourceVersion, and
      when it adds a finalizer to an object that is being deleted. */
  predicate UpdateAccepted(w: World, copy: ControlPlane) {
    && Cur(w).obj.Some?
    && var o := Cur(w).obj.value;
       o.rv == copy.rv && !(o.deleting && !o.finalizer && copy.finalizer)
  }

  /** Update writes metadata and spec, never status. */
  function Updated(o: ControlPlane, copy: ControlPlane): ControlPlane {
    o.(finalizer := copy.finalizer, spec := copy.spec)
  }

  predicate StatusAccepted(w: World, copy: ControlPlane) {
    Cur(w).obj.Some? && Cur(w).obj.value.rv == copy.rv
  }

  /** The status subresource writes status only. */
  function StatusUpdated(o: ControlPlane, copy: ControlPlane): ControlPlane {
    o.(status := copy.status)
  }

  function SetSecret(w: World, key: SecretKey, s: Secret): World {
    Commit(w, Cur(w).(secrets := Cur(w).secrets[key := s.(rv := w.rev + 1)]))
  }

  function DropSecret(w: World, key: SecretKey): World {
    Commit(w, Cur(w).(secrets := Cur(w).secrets - {key}))
  }

  /** A secret update is refused on a stale resourceVersion and when it would
      change the secret's type. */
  predicate SecretUpdateAccepted(w: World, key: SecretKey, s: Secret) {
    && key in Cur(w).secrets
    && Cur(w).secrets[key].rv == s.rv
    && Cur(w).secrets[key].kind == s.kind
  }

  /** A secret's resourceVersion is not ahead of the store, and stands for one
      content. */
  ghost predicate KeyHistory(w: World, key: SecretKey) {
    && (forall i :: 0 <= i < |w.log| && key in w.log[i].secrets ==> w.log[i].secrets[key].rv <= w.rev)
    && (forall i, j :: 0 <= i <= j < |w.log| && key in w.log[i].secrets && key in w.log[j].secrets ==>
          w.log[i].secrets[key].rv == w.log[j].secrets[key].rv ==> w.log[i].secrets[key] == w.log[j].secrets[key])
  }

  // ---- noplane.io service ----

  ghost predicate ServiceOK(v: Service) {
    && "" !in v.issued
    && (forall id :: id in v.planes ==>
          && id in v.issued
          && v.planes[id].plane.id == id
          && v.planes[id].plane.name == v.issued[id]
          && v.issued[id] in v.names && v.names[v.issued[id]] == id)
    && (forall n :: n in v.names ==>
          v.names[n] in v.planes && v.planes[v.names[n]].plane.name == n)
    && (v.next.Some? ==> v.next.value.id != "" && v.next.value.id !in v.issued)
  }

  function NewPlane(d: Draft, name: string, version: string): Hosted {
    Hosted(Plane(d.id, name, d.status, version, d.endpoint), d.kubeconfig)
  }

  function WithPlane(v: Service, d: Draft, name: string, version: string): Service {
    Service(
      v.planes[d.id := NewPlane(d, name, version)],
      v.names[name := d.id],
      v.issued[d.id := name],
      None)
  }

  function WithVersion(v: Service, id: string, version: string): Service
    requires id in v.planes
  {
    if version == "" then v
    else
      var h := v.planes[id];
      v.(planes := v.planes[id := h.(plane := h.plane.(version := version))])
  }

  function WithoutPlane(v: Service, id: string): Service
    requires id in v.planes
  {
    v.(planes := v.planes - {id}, names := v.names - {v.planes[id].plane.name})
  }

  lemma WithPlaneOK(v: Service, name: string, version: string)
    requires ServiceOK(v) && v.next.Some? && name !in v.names
    ensures ServiceOK(WithPlane(v, v.next.value, name, version))
  {
  }

  lemma WithVersionOK(v: Service, id: string, version: string)
    requires ServiceOK(v) && id in v.planes
    ensures ServiceOK(WithVersion(v, id, version))
  {
  }

  lemma WithoutPlaneOK(v: Service, id: string)
    requires ServiceOK(v) && id in v.planes
    ensures ServiceOK(WithoutPlane(v, id))
  {
    var v' := WithoutPlane(v, id);
    forall n | n in v'.names
      ensures v'.names[n] in v'.planes && v'.planes[v'.names[n]].plane.name == n
    {
      assert n in v.names && n != v.planes[id].plane.name;
    }
  }
}
