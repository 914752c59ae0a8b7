/** The reconciler as a machine: at each location it has issued one API request
    and waits for the reply. `RequestOf` is the request, `Serve` what the two
    stores do with it, `Resume` the code that runs between one reply and the
    next request. */
module Controller {
  import opened Domain
  import opened Stores

  /** How the client turns HTTP answers into errors. The typed errors of
      errors.go steer the adopt and delete paths. */
  datatype ErrorMapping = ErrorMapping(conflictTyped: bool, notFoundTyped: bool, updateSupported: bool)

  /** The fake ignores the ID a kubeconfig is asked for; the HTTP API does not. */
  datatype Kubeconfigs = ById | Anyone(bytes: Bytes)

  datatype Params = Params(
    name: string,
    cluster: ClusterRef,
    parse: Bytes -> Option<map<string, Bytes>>,
    errors: ErrorMapping,
    kubeconfigs: Kubeconfigs)

  const FAKE_ERRORS := ErrorMapping(true, true, true)
  const HTTP_ERRORS := ErrorMapping(false, false, false)

  /** A running reconcile: the copy of the object, the resolved plane ID and
      the plane that was read. */
  datatype Ctx = Ctx(ncp: ControlPlane, id: string, plane: Plane)

  datatype End = Gone | Unowned | Paused | Failed | Requeue(seconds: nat) | Wrote

  datatype Worker =
    | Idle
    | Done(end: End)
    | Reading
    | CheckingOwner(ncp: ControlPlane)
    | AddingFinalizer(ncp: ControlPlane)
    | Authenticating(ncp: ControlPlane)
    | CreatingPlane(ncp: ControlPlane)
    | LookingUp(ncp: ControlPlane)
    | PersistingID(ncp: ControlPlane, id: string)
    | GettingPlane(ncp: ControlPlane, id: string)
    | Upgrading(ncp: ControlPlane, id: string)
    | WritingEndpoint(ctx: Ctx)
    | FetchingKubeconfig(ctx: Ctx)
    | ReadingKubeconfigSecret(ctx: Ctx, kc: Bytes)
    | CreatingKubeconfigSecret(ctx: Ctx, kc: Bytes)
    | UpdatingKubeconfigSecret(ctx: Ctx, kc: Bytes, prior: Secret)
    | CheckingCa(ctx: Ctx)
    | FetchingCa(ctx: Ctx, existing: Option<Secret>)
    | RecheckingCa(ctx: Ctx, existing: Option<Secret>, crt: Bytes, key: Bytes)
    | CreatingCa(ctx: Ctx, crt: Bytes, key: Bytes)
    | DroppingCa(ctx: Ctx, crt: Bytes, key: Bytes)
    | UpdatingCa(ctx: Ctx, crt: Bytes, key: Bytes, prior: Secret)
    | Committing(ctx: Ctx)
    | DeletingPlane(ncp: ControlPlane)
    | RemovingFinalizer(ncp: ControlPlane)

  /** The local copy `ncp` of the object, before the edits the pending request
      carries. */
  function Copy(k: Worker): Option<ControlPlane> {
    match k
    case Idle | Done(_) | Reading => None
    case CheckingOwner(ncp) => Some(ncp)
    case AddingFinalizer(ncp) => Some(ncp)
    case Authenticating(ncp) => Some(ncp)
    case CreatingPlane(ncp) => Some(ncp)
    case LookingUp(ncp) => Some(ncp)
    case PersistingID(ncp, _) => Some(ncp)
    case GettingPlane(ncp, _) => Some(ncp)
    case Upgrading(ncp, _) => Some(ncp)
    case DeletingPlane(ncp) => Some(ncp)
    case RemovingFinalizer(ncp) => Some(ncp)
    case _ => Some(k.ctx.ncp)
  }

  /** Past the version check of reconcileNormal: a ready plane has been read. */
  predicate HasCtx(k: Worker) {
    || k.WritingEndpoint? || k.FetchingKubeconfig? || k.ReadingKubeconfigSecret?
    || k.CreatingKubeconfigSecret? || k.UpdatingKubeconfigSecret? || k.CheckingCa?
    || k.FetchingCa? || k.RecheckingCa? || k.CreatingCa? || k.DroppingCa?
    || k.UpdatingCa? || k.Committing?
  }

  /** resolvePlaneID has returned an ID. */
  predicate Resolved(k: Worker) {
    k.GettingPlane? || k.Upgrading? || HasCtx(k)
  }

  function ResolvedID(k: Worker): string
    requires Resolved(k)
  {
    match k
    case GettingPlane(_, id) => id
    case Upgrading(_, id) => id
    case _ => k.ctx.id
  }

  // ---- Requests and replies ----

  datatype Call =
    | NoCall
    | GetObject
    | FindOwner
    | Authenticate
    | PutObject(copy: ControlPlane)
    | PutStatus(copy: ControlPlane)
    | GetSecret(key: SecretKey)
    | CreateSecret(key: SecretKey, secret: Secret)
    | PutSecret(key: SecretKey, secret: Secret)
    | DeleteSecret(key: SecretKey)
    | CreatePlane(name: string, version: string)
    | GetPlane(id: string)
    | GetPlaneByName(name: string)
    | UpdatePlane(id: string, version: string)
    | DeletePlane(id: string)
    | GetKubeconfig(id: string)

  datatype Reply =
    | Unavailable
    | Absent
    | Conflict
    | Ack
    | NotOwned
    | IsPaused
    | Object(obj: ControlPlane)
    | SecretIs(secret: Secret)
    | PlaneIs(plane: Plane)
    | KubeconfigIs(bytes: Bytes)

  datatype Gate = Proceed | NoOwner | Held

  /** A request succeeds, fails before it takes effect, or takes effect while
      its reply is lost. */
  datatype Outcome = Success | Fails | ReplyLost

  /** Everything the environment decides about one request: its outcome, how
      stale a read is, owner and pause state, which cluster entry Go's map
      iteration yields first, and the random key. */
  datatype Input = Input(outcome: Outcome, lag: nat, gate: Gate, pick: string, key: Bytes)

  function KubeconfigSecret(p: Params, kc: Bytes): Secret {
    Secret(0, OPAQUE, Some(p.cluster.name), map[NAME_LABEL := p.cluster.name], map["value" := kc])
  }

  function CaSecret(p: Params, crt: Bytes, key: Bytes): Secret {
    Secret(0, CLUSTER_SECRET, Some(p.cluster.name), map[NAME_LABEL := p.cluster.name],
           map["tls.crt" := crt, "tls.key" := key])
  }

  function Refilled(prior: Secret, s: Secret): Secret {
    prior.(data := s.data, labels := s.labels)
  }

  function WithID(ncp: ControlPlane, id: string): ControlPlane {
    ncp.(status := ncp.status.(planeID := id))
  }

  function WithEndpoint(c: Ctx): ControlPlane {
    c.ncp.(spec := c.ncp.spec.(endpoint := Desired(c.plane)))
  }

  function Committed(c: Ctx): ControlPlane {
    c.ncp.(status := Status(true, true, c.id, c.plane.version))
  }

  function RequestOf(p: Params, k: Worker): Call {
    match k
    case Idle => NoCall
    case Done(_) => NoCall
    case Reading => GetObject
    case CheckingOwner(_) => FindOwner
    case AddingFinalizer(ncp) => PutObject(ncp.(finalizer := true))
    case Authenticating(_) => Authenticate
    case CreatingPlane(ncp) => CreatePlane(p.name, ncp.spec.version)
    case LookingUp(_) => GetPlaneByName(p.name)
    case PersistingID(ncp, id) => PutStatus(WithID(ncp, id))
    case GettingPlane(_, id) => GetPlane(id)
    case Upgrading(ncp, id) => UpdatePlane(id, ncp.spec.version)
    case WritingEndpoint(c) => PutObject(WithEndpoint(c))
    case FetchingKubeconfig(c) => GetKubeconfig(c.ncp.status.planeID)
    case ReadingKubeconfigSecret(_, _) => GetSecret(KubeconfigKey(p.cluster))
    case CreatingKubeconfigSecret(_, kc) => CreateSecret(KubeconfigKey(p.cluster), KubeconfigSecret(p, kc))
    case UpdatingKubeconfigSecret(_, kc, prior) =>
      PutSecret(KubeconfigKey(p.cluster), Refilled(prior, KubeconfigSecret(p, kc)))
    case CheckingCa(_) => GetSecret(CaKey(p.cluster))
    case FetchingCa(c, _) => GetKubeconfig(c.ncp.status.planeID)
    case RecheckingCa(_, _, _, _) => GetSecret(CaKey(p.cluster))
    case CreatingCa(_, crt, key) => CreateSecret(CaKey(p.cluster), CaSecret(p, crt, key))
    case DroppingCa(_, _, _) => DeleteSecret(CaKey(p.cluster))
    case UpdatingCa(_, crt, key, prior) =>
      PutSecret(CaKey(p.cluster), Refilled(prior, CaSecret(p, crt, key)))
    case Committing(c) => PutStatus(Committed(c))
    case DeletingPlane(ncp) => DeletePlane(ncp.status.planeID)
    case RemovingFinalizer(ncp) => PutObject(ncp.(finalizer := false))
  }

  // ---- What the stores do ----

  function KubeconfigReply(p: Params, v: Service, id: string): Reply {
    match p.kubeconfigs
    case Anyone(b) => KubeconfigIs(b)
    case ById => if id in v.planes then KubeconfigIs(v.planes[id].kubeconfig) else Unavailable
  }

  function Note(w: World, e: Event): World {
    w.(events := w.events + [e])
  }

  function Serve(p: Params, w: World, c: Call, inp: Input): (World, Reply) {
    match c
    case NoCall => (w, Unavailable)
    case GetObject =>
      (w, match Read(w, inp.lag).obj case None => Absent case Some(o) => Object(o))
    case FindOwner =>
      (w, match inp.gate case Proceed => Ack case NoOwner => NotOwned case Held => IsPaused)
    case Authenticate => (w, Ack)
    case PutObject(copy) =>
      if UpdateAccepted(w, copy) then
        var o := Cur(w).obj.value;
        (StoreObject(w, o, Updated(o, copy)), Object(Stamped(w, o, Updated(o, copy))))
      else (w, Unavailable)
    case PutStatus(copy) =>
      if StatusAccepted(w, copy) then
        var o := Cur(w).obj.value;
        (StoreObject(w, o, StatusUpdated(o, copy)), Object(Stamped(w, o, StatusUpdated(o, copy))))
      else (w, Unavailable)
    case GetSecret(key) =>
      (w, match Lookup(Read(w, inp.lag).secrets, key) case None => Absent case Some(s) => SecretIs(s))
    case CreateSecret(key, s) =>
      if key in Cur(w).secrets then (w, Unavailable) else (SetSecret(w, key, s), Ack)
    case PutSecret(key, s) =>
      if !SecretUpdateAccepted(w, key, s) then (w, Unavailable)
      else if s == Cur(w).secrets[key] then (w, Ack)
      else (SetSecret(w, key, s), Ack)
    case DeleteSecret(key) =>
      if key in Cur(w).secrets then (DropSecret(w, key), Ack) else (w, Unavailable)
    case CreatePlane(name, version) =>
      if name in w.svc.names then
        (Note(w, CreateConflict), if p.errors.conflictTyped then Conflict else Unavailable)
      else if w.svc.next.None? then (w, Unavailable)
      else
        var d := w.svc.next.value;
        (Note(w.(svc := WithPlane(w.svc, d, name, version)), Created(d.id)),
         PlaneIs(NewPlane(d, name, version).plane))
    case GetPlane(id) =>
      (w, if id in w.svc.planes then PlaneIs(w.svc.planes[id].plane) else Unavailable)
    case GetPlaneByName(name) =>
      (w, if name in w.svc.names && w.svc.names[name] in w.svc.planes
          then PlaneIs(w.svc.planes[w.svc.names[name]].plane) else Unavailable)
    case UpdatePlane(id, version) =>
      if p.errors.updateSupported && id in w.svc.planes then
        (Note(w.(svc := WithVersion(w.svc, id, version)), Upgraded(id)), Ack)
      else (w, Unavailable)
    case DeletePlane(id) =>
      if id in w.svc.planes then (Note(w.(svc := WithoutPlane(w.svc, id)), Deleted(id)), Ack)
      else (Note(w, DeleteMissed(id)), if p.errors.notFoundTyped then Absent else Unavailable)
    case GetKubeconfig(id) => (w, KubeconfigReply(p, w.svc, id))
  }

  // ---- The code between a reply and the next request ----

  /** resolvePlaneID up to its first request. */
  function EnterNormal(ncp: ControlPlane): Worker {
    if ncp.spec.planeID != "" then GettingPlane(ncp, ncp.spec.planeID)
    else if ncp.status.planeID != "" then GettingPlane(ncp, ncp.status.planeID)
    else CreatingPlane(ncp)
  }

  function EnterDelete(ncp: ControlPlane): Worker {
    if ncp.status.planeID == "" then RemovingFinalizer(ncp) else DeletingPlane(ncp)
  }

  /** reconcileNormal from the plane it read to its next request. */
  function WithPlaneRead(ncp: ControlPlane, id: string, plane: Plane): Worker {
    if plane.status != READY then Done(Requeue(15))
    else if plane.version != ncp.spec.version then Upgrading(ncp, id)
    else if ncp.spec.endpoint != Desired(plane) then WritingEndpoint(Ctx(ncp, id, plane))
    else FetchingKubeconfig(Ctx(ncp, id, plane))
  }

  /** The CA certificate of one cluster entry of a kubeconfig; [] when there is none. */
  function PickCa(p: Params, kc: Bytes, pick: string): Bytes {
    match p.parse(kc)
    case None => []
    case Some(clusters) => if pick in clusters then clusters[pick] else []
  }

  function Resume(p: Params, k: Worker, r: Reply, inp: Input): Worker {
    match k
    case Idle => Idle
    case Done(e) => Done(e)
    case Reading =>
      if r.Object? then CheckingOwner(r.obj) else if r.Absent? then Done(Gone) else Done(Failed)
    case CheckingOwner(ncp) =>
      if r.NotOwned? then Done(Unowned)
      else if r.IsPaused? then Done(Paused)
      else if !r.Ack? then Done(Failed)
      else if !ncp.finalizer then AddingFinalizer(ncp)
      else Authenticating(ncp)
    case AddingFinalizer(_) => if r.Object? then Done(Wrote) else Done(Failed)
    case Authenticating(ncp) =>
      if !r.Ack? then Done(Failed)
      else if ncp.deleting then EnterDelete(ncp)
      else EnterNormal(ncp)
    case CreatingPlane(ncp) =>
      if r.PlaneIs? then PersistingID(ncp, r.plane.id)
      else if r.Conflict? then LookingUp(ncp)
      else Done(Failed)
    case LookingUp(ncp) => if r.PlaneIs? then PersistingID(ncp, r.plane.id) else Done(Failed)
    case PersistingID(_, id) => if r.Object? then GettingPlane(r.obj, id) else Done(Failed)
    case GettingPlane(ncp, id) => if r.PlaneIs? then WithPlaneRead(ncp, id, r.plane) else Done(Failed)
    case Upgrading(_, _) => if r.Ack? then Done(Requeue(30)) else Done(Failed)
    case WritingEndpoint(c) => if r.Object? then FetchingKubeconfig(c.(ncp := r.obj)) else Done(Failed)
    case FetchingKubeconfig(c) =>
      if r.KubeconfigIs? then ReadingKubeconfigSecret(c, r.bytes) else Done(Failed)
    case ReadingKubeconfigSecret(c, kc) =>
      if r.Absent? then CreatingKubeconfigSecret(c, kc)
      else if r.SecretIs? then UpdatingKubeconfigSecret(c, kc, r.secret)
      else Done(Failed)
    case CreatingKubeconfigSecret(c, _) => if r.Ack? then CheckingCa(c) else Done(Failed)
    case UpdatingKubeconfigSecret(c, _, _) => if r.Ack? then CheckingCa(c) else Done(Failed)
    case CheckingCa(c) =>
      if r.SecretIs? then
        if HasKey(Some(r.secret)) then Committing(c) else FetchingCa(c, Some(r.secret))
      else if r.Absent? then FetchingCa(c, None)
      else Done(Failed)
    case FetchingCa(c, existing) =>
      if !r.KubeconfigIs? then Done(Failed)
      else if PickCa(p, r.bytes, inp.pick) == [] || inp.key == [] then Done(Failed)
      else RecheckingCa(c, existing, PickCa(p, r.bytes, inp.pick), inp.key)
    case RecheckingCa(c, existing, crt, key) =>
      // Only "not found" is looked at; after any other error `existing` keeps
      // the secret read before, and deleting a nameless one is refused.
      if r.Absent? then CreatingCa(c, crt, key)
      else
        var now := if r.SecretIs? then Some(r.secret) else existing;
        if now.None? then Done(Failed)
        else if now.value.kind != CLUSTER_SECRET then DroppingCa(c, crt, key)
        else UpdatingCa(c, crt, key, now.value)
    case CreatingCa(c, _, _) => if r.Ack? then Committing(c) else Done(Failed)
    case DroppingCa(c, crt, key) => if r.Ack? then CreatingCa(c, crt, key) else Done(Failed)
    case UpdatingCa(c, _, _, _) => if r.Ack? then Committing(c) else Done(Failed)
    case Committing(_) => if r.Object? then Done(Requeue(60)) else Done(Failed)
    case DeletingPlane(ncp) => if r.Ack? || r.Absent? then RemovingFinalizer(ncp) else Done(Failed)
    case RemovingFinalizer(_) => if r.Object? then Done(Wrote) else Done(Failed)
  }

  /** One request of the controller, from issue to reply. */
  function Step(p: Params, w: World, k: Worker, inp: Input): (World, Worker) {
    var (served, reply) := Serve(p, w, RequestOf(p, k), inp);
    match inp.outcome
    case Success => (served, Resume(p, k, reply, inp))
    case Fails => (w, Resume(p, k, Unavailable, inp))
    case ReplyLost => (served, Resume(p, k, Unavailable, inp))
  }

  // ---- Whole reconciles ----

  /** An upper bound on the requests a reconcile still makes. */
  function Rank(k: Worker): nat {
    match k
    case Idle => 0
    case Done(_) => 0
    case Reading => 20
    case CheckingOwner(_) => 19
    case AddingFinalizer(_) => 1
    case Authenticating(_) => 18
    case CreatingPlane(_) => 17
    case LookingUp(_) => 16
    case PersistingID(_, _) => 15
    case GettingPlane(_, _) => 14
    case Upgrading(_, _) => 1
    case WritingEndpoint(_) => 13
    case FetchingKubeconfig(_) => 12
    case ReadingKubeconfigSecret(_, _) => 11
    case CreatingKubeconfigSecret(_, _) => 10
    case UpdatingKubeconfigSecret(_, _, _) => 10
    case CheckingCa(_) => 9
    case FetchingCa(_, _) => 8
    case RecheckingCa(_, _, _, _) => 7
    case DroppingCa(_, _, _) => 6
    case CreatingCa(_, _, _) => 5
    case UpdatingCa(_, _, _, _) => 5
    case Committing(_) => 4
    case DeletingPlane(_) => 2
    case RemovingFinalizer(_) => 1
  }

  predicate Stopped(k: Worker) {
    k.Idle? || k.Done?
  }

  /** Runs a reconcile to its end, request i being decided by script(i). */
  function Exec(p: Params, w: World, k: Worker, script: nat -> Input, pos: nat): (World, Worker)
    decreases Rank(k)
  {
    if Stopped(k) then (w, k)
    else
      var (w', k') := Step(p, w, k, script(pos));
      Exec(p, w', k', script, pos + 1)
  }
}
