/** What a controller that is left alone achieves: where it is heading from any
    reachable state, that it gets there in at most three reconciles, that it
    stays there, and that crashes on the way do not change the destination. */
module Convergence {
  import opened Domain
  import opened Stores
  import opened Controller
  import opened Runs
  import opened Safety
  import opened Greenfield
  import opened Secrets

  /** The plane the object stands for: the one its spec or its status names, or
      else the one that bears its name. */
  function Target(p: Params, w: World): Option<string> {
    if Cur(w).obj.None? then None
    else if IdOf(Cur(w).obj.value) != "" then Some(IdOf(Cur(w).obj.value))
    else Own(p, w.svc)
  }

  /** The plane this object has or, if there is none, will be given; running
      the version the spec asks for. */
  function GoalPlane(p: Params, w: World): Option<Hosted> {
    if Cur(w).obj.None? then None
    else
      var version := Cur(w).obj.value.spec.version;
      match Target(p, w)
      case Some(id) =>
        if id in w.svc.planes then
          var h := w.svc.planes[id];
          Some(h.(plane := h.plane.(version := version)))
        else None
      case None =>
        if w.svc.next.Some? then Some(NewPlane(w.svc.next.value, p.name, version)) else None
  }

  function GoalKubeconfig(p: Params, h: Hosted): Bytes {
    match p.kubeconfigs
    case Anyone(b) => b
    case ById => h.kubeconfig
  }

  /** Secrets up to resourceVersion and, for the CA, up to the random key. */
  function Faced(s: Secret): Secret {
    s.(rv := 0)
  }

  function Keyless(s: Secret): Secret {
    s.(rv := 0, data := s.data - {"tls.key"})
  }

  function GoalKubeconfigSecret(p: Params, c: Snapshot, kc: Bytes): Secret {
    match KubeconfigAt(p, c)
    case None => Faced(KubeconfigSecret(p, kc))
    case Some(s) => Faced(Refilled(s, KubeconfigSecret(p, kc)))
  }

  function GoalCaSecret(p: Params, c: Snapshot, crt: Bytes): Secret {
    var made := Keyless(CaSecret(p, crt, []));
    match CaAt(p, c)
    case None => made
    case Some(s) =>
      if HasKey(Some(s)) then Keyless(s)
      else if s.kind != CLUSTER_SECRET then made
      else Keyless(Refilled(s, CaSecret(p, crt, [])))
  }

  datatype Goal = Goal(
    planes: map<string, Hosted>,
    spec: Spec,
    status: Status,
    kubeconfig: Secret,
    ca: Secret)

  /** The one state the object, its plane and its secrets are heading for. */
  function GoalOf(p: Params, w: World, crt: Bytes): Option<Goal> {
    var h := GoalPlane(p, w);
    if h.None? || Cur(w).obj.None? then None
    else
      var plane := h.value.plane;
      var spec := Cur(w).obj.value.spec;
      Some(Goal(
        w.svc.planes[plane.id := h.value],
        spec.(endpoint := Desired(plane)),
        Status(true, true, plane.id, spec.version),
        GoalKubeconfigSecret(p, Cur(w), GoalKubeconfig(p, h.value)),
        GoalCaSecret(p, Cur(w), crt)))
  }

  /** Where the object, its plane and its secrets are. */
  function Shown(p: Params, w: World): Option<Goal> {
    var c := Cur(w);
    if c.obj.None? || KubeconfigAt(p, c).None? || CaAt(p, c).None? then None
    else Some(Goal(w.svc.planes, c.obj.value.spec, c.obj.value.status,
                   Faced(KubeconfigAt(p, c).value), Keyless(CaAt(p, c).value)))
  }

  /** Every cluster entry of the kubeconfig carries the CA certificate crt. */
  ghost predicate CarriesCa(p: Params, kc: Bytes, crt: Bytes) {
    && crt != []
    && p.parse(kc).Some?
    && forall e :: e in p.parse(kc).value ==> p.parse(kc).value[e] == crt
  }

  /** The kubeconfig is fetched for the plane the object stands for. */
  predicate Matched(p: Params, o: ControlPlane) {
    p.kubeconfigs.Anyone? || o.spec.planeID == "" || o.spec.planeID == o.status.planeID
  }

  /** A world as any run can reach it, with an object nobody deletes, a plane
      (existing or next in line) that is ready, and a usable kubeconfig. */
  ghost predicate Promising(p: Params, w: World, crt: Bytes) {
    && Inv(State(w, Idle))
    && Cur(w).obj.Some? && !Cur(w).obj.value.deleting && Cur(w).obj.value.spec.version != ""
    && GoalPlane(p, w).Some?
    && GoalPlane(p, w).value.plane.status == READY
    && CarriesCa(p, GoalKubeconfig(p, GoalPlane(p, w).value), crt)
  }

  ghost predicate Serviceable(p: Params, w: World, crt: Bytes) {
    Promising(p, w, crt) && Matched(p, Cur(w).obj.value)
  }

  /** The object's finalizer is on, its secrets are complete, and everything is
      where it is heading. */
  ghost predicate Converged(p: Params, w: World, crt: Bytes) {
    && HasFinalizer(Cur(w))
    && HasKey(CaAt(p, Cur(w)))
    && GoalOf(p, w, crt).Some?
    && Shown(p, w) == GoalOf(p, w, crt)
  }

  predicate Drifts(p: Params, w: World) {
    && Cur(w).obj.Some?
    && Target(p, w).Some? && Target(p, w).value in w.svc.planes
    && w.svc.planes[Target(p, w).value].plane.version != Cur(w).obj.value.spec.version
  }

  function Distance(p: Params, w: World): nat {
    (if HasFinalizer(Cur(w)) then 0 else 1) + (if Drifts(p, w) then 1 else 0)
  }

  // ---- An undisturbed reconcile knows what it works on ----

  function KcOf(p: Params, w: World, id: string): Bytes
    requires id in w.svc.planes
  {
    GoalKubeconfig(p, w.svc.planes[id])
  }

  predicate AtPlane(w: World, ncp: ControlPlane, id: string) {
    Cur(w).obj == Some(ncp) && IdOf(ncp) == id && id != "" && id in w.svc.planes
  }

  predicate AtCtx(w: World, c: Ctx) {
    AtPlane(w, c.ncp, c.id) && w.svc.planes[c.id].plane == c.plane
  }

  predicate AtKubeconfig(p: Params, w: World, c: Ctx, kc: Bytes) {
    AtCtx(w, c) && kc == KcOf(p, w, c.id)
  }

  predicate KubeconfigWritten(p: Params, w: World, c: Ctx) {
    && AtCtx(w, c)
    && KubeconfigAt(p, Cur(w)).Some?
    && Faced(KubeconfigAt(p, Cur(w)).value) == GoalKubeconfigSecret(p, Cur(w), KcOf(p, w, c.id))
  }

  predicate CaNeeded(p: Params, w: World, c: Ctx, existing: Option<Secret>) {
    KubeconfigWritten(p, w, c) && CaAt(p, Cur(w)) == existing && !HasKey(existing)
  }

  /** All a reconcile holds is what the stores hold. */
  predicate Aware(p: Params, w: World, k: Worker, crt: Bytes) {
    match k
    case Idle => true
    case Done(_) => true
    case Reading => true
    case LookingUp(ncp) => Cur(w).obj == Some(ncp) && Own(p, w.svc).Some?
    case PersistingID(ncp, id) => Cur(w).obj == Some(ncp) && Own(p, w.svc) == Some(id)
    case GettingPlane(ncp, id) => AtPlane(w, ncp, id)
    case Upgrading(ncp, id) => AtPlane(w, ncp, id) && Drifts(p, w)
    case WritingEndpoint(c) => AtCtx(w, c) && c.ncp.spec.endpoint != Desired(c.plane)
    case FetchingKubeconfig(c) => AtCtx(w, c)
    case ReadingKubeconfigSecret(c, kc) => AtKubeconfig(p, w, c, kc)
    case CreatingKubeconfigSecret(c, kc) => AtKubeconfig(p, w, c, kc) && KubeconfigAt(p, Cur(w)).None?
    case UpdatingKubeconfigSecret(c, kc, prior) =>
      AtKubeconfig(p, w, c, kc) && KubeconfigAt(p, Cur(w)) == Some(prior)
    case CheckingCa(c) => KubeconfigWritten(p, w, c)
    case FetchingCa(c, existing) => CaNeeded(p, w, c, existing)
    case RecheckingCa(c, existing, cert, key) => CaNeeded(p, w, c, existing) && cert == crt && key != []
    case CreatingCa(c, cert, key) => CaNeeded(p, w, c, None) && cert == crt && key != []
    case DroppingCa(c, cert, key) =>
      && CaNeeded(p, w, c, CaAt(p, Cur(w))) && cert == crt && key != []
      && CaAt(p, Cur(w)).Some? && CaAt(p, Cur(w)).value.kind != CLUSTER_SECRET
    case UpdatingCa(c, cert, key, prior) =>
      CaNeeded(p, w, c, Some(prior)) && cert == crt && key != [] && prior.kind == CLUSTER_SECRET
    case Committing(c) => KubeconfigWritten(p, w, c) && HasKey(CaAt(p, Cur(w)))
    case _ => Cur(w).obj == Some(k.ncp)
  }

  ghost predicate Coherent(p: Params, w: World, k: Worker, crt: Bytes) {
    Inv(State(w, k)) && Aware(p, w, k, crt)
  }

  /** A step that brings the world no further from its goal, and leaves the goal
      where it was. */
  ghost predicate Heads(p: Params, w: World, w': World, crt: Bytes) {
    && Serviceable(p, w', crt)
    && GoalOf(p, w', crt) == GoalOf(p, w, crt)
    && (HasFinalizer(Cur(w)) ==> HasFinalizer(Cur(w')))
    && (Drifts(p, w') ==> Drifts(p, w))
    && (Drifts(p, w) ==> Drifts(p, w') || p.errors.updateSupported)
  }

  // ---- Reads ----

  /** The part of Serviceable that the code between requests depends on. */
  ghost predicate Basics(p: Params, w: World, crt: Bytes) {
    && Cur(w).obj.Some?
    && !Cur(w).obj.value.deleting
    && Cur(w).obj.value.spec.version != ""
    && Matched(p, Cur(w).obj.value)
    && (Target(p, w).Some? ==>
          var id := Target(p, w).value;
          && id != "" && id in w.svc.planes
          && w.svc.planes[id].plane.id == id
          && w.svc.planes[id].plane.status == READY
          && CarriesCa(p, KcOf(p, w, id), crt))
  }

  lemma ServiceableBasics(p: Params, w: World, crt: Bytes)
    requires Serviceable(p, w, crt)
    ensures Basics(p, w, crt)
  {
  }

  predicate EarlyRead(k: Worker) {
    k.Reading? || k.CheckingOwner? || k.Authenticating? || k.LookingUp? || k.GettingPlane?
  }

  predicate KubeconfigRead(k: Worker) {
    k.FetchingKubeconfig? || k.ReadingKubeconfigSecret?
  }

  predicate CaRead(k: Worker) {
    k.CheckingCa? || k.FetchingCa? || k.RecheckingCa?
  }

  predicate Reads(k: Worker) {
    EarlyRead(k) || KubeconfigRead(k) || CaRead(k)
  }

  lemma FirstReadsAware(p: Params, w: World, k: Worker, crt: Bytes, inp: Input)
    requires Basics(p, w, crt) && Aware(p, w, k, crt) && inp.lag == 0
    requires k.Reading? || k.CheckingOwner? || k.Authenticating?
    ensures Serve(p, w, RequestOf(p, k), inp).0 == w
    ensures Aware(p, w, Resume(p, k, Serve(p, w, RequestOf(p, k), inp).1, inp), crt)
    ensures Aware(p, w, Resume(p, k, Unavailable, inp), crt)
  {
  }

  lemma PlaneReadsAware(p: Params, w: World, k: Worker, crt: Bytes, inp: Input)
    requires Basics(p, w, crt) && Aware(p, w, k, crt) && Placed(k) && (k.LookingUp? || k.GettingPlane?)
    ensures Serve(p, w, RequestOf(p, k), inp).0 == w
    ensures Aware(p, w, Resume(p, k, Serve(p, w, RequestOf(p, k), inp).1, inp), crt)
    ensures Aware(p, w, Resume(p, k, Unavailable, inp), crt)
  {
  }

  lemma PickIsCa(p: Params, kc: Bytes, crt: Bytes, pick: string)
    requires CarriesCa(p, kc, crt)
    ensures PickCa(p, kc, pick) == crt || PickCa(p, kc, pick) == []
  {
  }

  lemma KubeconfigReadsAware(p: Params, w: World, k: Worker, crt: Bytes, inp: Input)
    requires Basics(p, w, crt) && Aware(p, w, k, crt) && KubeconfigRead(k) && inp.lag == 0
    ensures Serve(p, w, RequestOf(p, k), inp).0 == w
    ensures Aware(p, w, Resume(p, k, Serve(p, w, RequestOf(p, k), inp).1, inp), crt)
    ensures Aware(p, w, Resume(p, k, Unavailable, inp), crt)
  {
  }

  lemma CaSecretReadsAware(p: Params, w: World, k: Worker, crt: Bytes, inp: Input)
    requires Aware(p, w, k, crt) && (k.CheckingCa? || k.RecheckingCa?) && inp.lag == 0
    ensures Serve(p, w, RequestOf(p, k), inp).0 == w
    ensures Aware(p, w, Resume(p, k, Serve(p, w, RequestOf(p, k), inp).1, inp), crt)
    ensures Aware(p, w, Resume(p, k, Unavailable, inp), crt)
  {
  }

  lemma CaFetchAware(p: Params, w: World, k: Worker, crt: Bytes, inp: Input)
    requires Basics(p, w, crt) && Aware(p, w, k, crt) && k.FetchingCa?
    ensures Serve(p, w, RequestOf(p, k), inp).0 == w
    ensures Aware(p, w, Resume(p, k, Serve(p, w, RequestOf(p, k), inp).1, inp), crt)
    ensures Aware(p, w, Resume(p, k, Unavailable, inp), crt)
  {
    PickIsCa(p, KcOf(p, w, k.ctx.id), crt, inp.pick);
  }

  lemma ReadsAware(p: Params, w: World, k: Worker, crt: Bytes, inp: Input)
    requires Basics(p, w, crt) && Aware(p, w, k, crt) && Placed(k) && Reads(k) && inp.lag == 0
    ensures Serve(p, w, RequestOf(p, k), inp).0 == w
    ensures Aware(p, w, Resume(p, k, Serve(p, w, RequestOf(p, k), inp).1, inp), crt)
    ensures Aware(p, w, Resume(p, k, Unavailable, inp), crt)
  {
    if k.LookingUp? || k.GettingPlane? {
      PlaneReadsAware(p, w, k, crt, inp);
    } else if EarlyRead(k) {
      FirstReadsAware(p, w, k, crt, inp);
    } else if KubeconfigRead(k) {
      KubeconfigReadsAware(p, w, k, crt, inp);
    } else if k.FetchingCa? {
      CaFetchAware(p, w, k, crt, inp);
    } else {
      CaSecretReadsAware(p, w, k, crt, inp);
    }
  }

  // ---- Object writes ----

  predicate ObjectWrite(k: Worker) {
    k.AddingFinalizer? || k.PersistingID? || k.WritingEndpoint? || k.Committing?
  }

  lemma ObjectWritesAware(p: Params, w: World, k: Worker, crt: Bytes, inp: Input)
    requires Serviceable(p, w, crt) && Coherent(p, w, k, crt) && ObjectWrite(k)
    ensures var (w', r) := Serve(p, w, RequestOf(p, k), inp);
            && w'.svc == w.svc && Cur(w').secrets == Cur(w).secrets
            && Accepted(p, w, k) && r.Object? && Cur(w').obj == Some(r.obj)
            && r.obj == Written(k).value.(rv := r.obj.rv)
            && Aware(p, w', Resume(p, k, r, inp), crt)
  {
    var (w', r) := Serve(p, w, RequestOf(p, k), inp);
    assert Accepted(p, w, k);
    WriteIsExact(p, w, k, inp);
    WrittenAware(p, w, k, w', r, crt, inp);
  }

  lemma WrittenAware(p: Params, w: World, k: Worker, w': World, r: Reply, crt: Bytes, inp: Input)
    requires Aware(p, w, k, crt) && Placed(k) && ObjectWrite(k) && ServiceOK(w.svc)
    requires w'.svc == w.svc && Cur(w').secrets == Cur(w).secrets
    requires r.Object? && Cur(w').obj == Some(r.obj) && r.obj == Written(k).value.(rv := r.obj.rv)
    ensures Aware(p, w', Resume(p, k, r, inp), crt)
  {
  }

  /** Goals do not depend on endpoint or finalizer, and on status only for the
      plane it names. */
  lemma SameGoal(p: Params, w: World, w': World, crt: Bytes)
    requires Cur(w).obj.Some? && Cur(w').obj.Some?
    requires w'.svc == w.svc && Cur(w').secrets == Cur(w).secrets && Target(p, w') == Target(p, w)
    requires Cur(w').obj.value.spec == Cur(w).obj.value.spec.(endpoint := Cur(w').obj.value.spec.endpoint)
    ensures GoalOf(p, w', crt) == GoalOf(p, w, crt)
    ensures GoalPlane(p, w') == GoalPlane(p, w) && Drifts(p, w') == Drifts(p, w)
  {
  }

  lemma ObjectWritesHead(p: Params, w: World, k: Worker, crt: Bytes, inp: Input)
    requires Serviceable(p, w, crt) && Coherent(p, w, k, crt) && ObjectWrite(k)
    ensures Heads(p, w, Serve(p, w, RequestOf(p, k), inp).0, crt)
  {
    var w' := Serve(p, w, RequestOf(p, k), inp).0;
    ObjectWritesAware(p, w, k, crt, inp);
    SameGoal(p, w, w', crt);
    ServeKeepsStores(p, w, k, inp);
    StaysServiceable(p, w, w', crt);
  }

  lemma StaysServiceable(p: Params, w: World, w': World, crt: Bytes)
    requires Serviceable(p, w, crt) && LogOK(w') && ServiceOK(w'.svc)
    requires Cur(w').obj.Some? && !Cur(w').obj.value.deleting && Matched(p, Cur(w').obj.value)
    requires Cur(w').obj.value.spec.version == Cur(w).obj.value.spec.version
    requires GoalPlane(p, w') == GoalPlane(p, w)
    ensures Serviceable(p, w', crt)
  {
  }

  // ---- Secret writes ----

  predicate SecretWrite(k: Worker) {
    || k.CreatingKubeconfigSecret? || k.UpdatingKubeconfigSecret?
    || k.CreatingCa? || k.DroppingCa? || k.UpdatingCa?
  }

  predicate CaWrite(k: Worker) {
    k.CreatingCa? || k.DroppingCa? || k.UpdatingCa?
  }

  /** What a secret write leaves in the store; nothing else changes. */
  lemma KubeconfigWriteShape(p: Params, w: World, k: Worker, crt: Bytes, inp: Input)
    requires Aware(p, w, k, crt) && (k.CreatingKubeconfigSecret? || k.UpdatingKubeconfigSecret?)
    ensures var (w', r) := Serve(p, w, RequestOf(p, k), inp);
            && w'.svc == w.svc && Cur(w').obj == Cur(w).obj && CaAt(p, Cur(w')) == CaAt(p, Cur(w))
            && r.Ack?
            && KubeconfigAt(p, Cur(w')).Some?
            && Faced(KubeconfigAt(p, Cur(w')).value) == GoalKubeconfigSecret(p, Cur(w), k.kc)
  {
    SecretKeysApart(p.cluster, p.cluster);
  }

  lemma GoalKubeconfigReached(p: Params, c: Snapshot, c': Snapshot, kc: Bytes)
    requires KubeconfigAt(p, c').Some?
    requires Faced(KubeconfigAt(p, c').value) == GoalKubeconfigSecret(p, c, kc)
    ensures GoalKubeconfigSecret(p, c', kc) == GoalKubeconfigSecret(p, c, kc)
  {
  }

  lemma CaWriteShape(p: Params, w: World, k: Worker, crt: Bytes, inp: Input)
    requires Aware(p, w, k, crt) && CaWrite(k)
    ensures var (w', r) := Serve(p, w, RequestOf(p, k), inp);
            && w'.svc == w.svc && Cur(w').obj == Cur(w).obj && KubeconfigAt(p, Cur(w')) == KubeconfigAt(p, Cur(w))
            && r.Ack?
            && (k.DroppingCa? ==> CaAt(p, Cur(w')).None?)
            && (!k.DroppingCa? ==> HasKey(CaAt(p, Cur(w'))))
            && GoalCaSecret(p, Cur(w'), crt) == GoalCaSecret(p, Cur(w), crt)
  {
    SecretKeysApart(p.cluster, p.cluster);
    assert map["tls.crt" := crt, "tls.key" := k.key] - {"tls.key"} == map["tls.crt" := crt];
    assert map["tls.crt" := crt, "tls.key" := []] - {"tls.key"} == map["tls.crt" := crt];
  }

  lemma SecretWritesAware(p: Params, w: World, k: Worker, crt: Bytes, inp: Input)
    requires Aware(p, w, k, crt) && SecretWrite(k)
    ensures var (w', r) := Serve(p, w, RequestOf(p, k), inp);
            r.Ack? && Aware(p, w', Resume(p, k, r, inp), crt)
  {
    var w' := Serve(p, w, RequestOf(p, k), inp).0;
    if CaWrite(k) {
      CaWriteShape(p, w, k, crt, inp);
    } else {
      KubeconfigWriteShape(p, w, k, crt, inp);
      GoalKubeconfigReached(p, Cur(w), Cur(w'), k.kc);
    }
  }

  lemma SecretWritesGoal(p: Params, w: World, k: Worker, crt: Bytes, inp: Input)
    requires Basics(p, w, crt) && Aware(p, w, k, crt) && SecretWrite(k)
    ensures var w' := Serve(p, w, RequestOf(p, k), inp).0;
            && w'.svc == w.svc && Cur(w').obj == Cur(w).obj
            && GoalPlane(p, w') == GoalPlane(p, w)
            && GoalOf(p, w', crt) == GoalOf(p, w, crt)
  {
    var w' := Serve(p, w, RequestOf(p, k), inp).0;
    if CaWrite(k) {
      CaWriteShape(p, w, k, crt, inp);
    } else {
      KubeconfigWriteShape(p, w, k, crt, inp);
      GoalKubeconfigReached(p, Cur(w), Cur(w'), k.kc);
    }
  }

  lemma SecretWritesHead(p: Params, w: World, k: Worker, crt: Bytes, inp: Input)
    requires Serviceable(p, w, crt) && Coherent(p, w, k, crt) && SecretWrite(k)
    ensures Heads(p, w, Serve(p, w, RequestOf(p, k), inp).0, crt)
  {
    ServiceableBasics(p, w, crt);
    SecretWritesGoal(p, w, k, crt, inp);
    ServeKeepsStores(p, w, k, inp);
    StaysServiceable(p, w, Serve(p, w, RequestOf(p, k), inp).0, crt);
  }

  // ---- Plane writes ----

  /** Planes moved, but towards the same goal. */
  ghost predicate SameAim(p: Params, w: World, w': World, crt: Bytes) {
    && w'.log == w.log && w'.rev == w.rev && w'.born == w.born
    && GoalPlane(p, w') == GoalPlane(p, w)
    && GoalOf(p, w', crt) == GoalOf(p, w, crt)
    && (Drifts(p, w') ==> Drifts(p, w))
    && (Drifts(p, w) ==> Drifts(p, w') || p.errors.updateSupported)
  }

  lemma CreationGoal(p: Params, w: World, ncp: ControlPlane, crt: Bytes, inp: Input)
    requires Serviceable(p, w, crt) && Cur(w).obj == Some(ncp) && IdOf(ncp) == ""
    ensures var w' := Serve(p, w, CreatePlane(p.name, ncp.spec.version), inp).0;
            SameAim(p, w, w', crt) && Own(p, w'.svc).Some?
  {
    var w' := Serve(p, w, CreatePlane(p.name, ncp.spec.version), inp).0;
    if p.name !in w.svc.names {
      var d := w.svc.next.value;
      assert w'.svc.planes[d.id := NewPlane(d, p.name, ncp.spec.version)] == w.svc.planes[d.id := NewPlane(d, p.name, ncp.spec.version)];
    }
  }

  lemma UpgradeGoal(p: Params, w: World, ncp: ControlPlane, id: string, crt: Bytes, inp: Input)
    requires Serviceable(p, w, crt) && AtPlane(w, ncp, id)
    ensures var w' := Serve(p, w, UpdatePlane(id, ncp.spec.version), inp).0;
            SameAim(p, w, w', crt) && (p.errors.updateSupported ==> !Drifts(p, w'))
  {
    var w' := Serve(p, w, UpdatePlane(id, ncp.spec.version), inp).0;
    var h := GoalPlane(p, w).value;
    assert w'.svc.planes[h.plane.id := h] == w.svc.planes[h.plane.id := h];
  }

  lemma SameAimHeads(p: Params, w: World, w': World, crt: Bytes)
    requires Serviceable(p, w, crt) && SameAim(p, w, w', crt) && ServiceOK(w'.svc)
    ensures Heads(p, w, w', crt)
  {
    StaysServiceable(p, w, w', crt);
  }

  lemma PlaneWritesAim(p: Params, w: World, k: Worker, crt: Bytes, inp: Input)
    requires Serviceable(p, w, crt) && Coherent(p, w, k, crt) && (k.CreatingPlane? || k.Upgrading?)
    ensures SameAim(p, w, Serve(p, w, RequestOf(p, k), inp).0, crt)
  {
    if k.CreatingPlane? {
      CreationGoal(p, w, k.ncp, crt, inp);
    } else {
      UpgradeGoal(p, w, k.ncp, k.id, crt, inp);
    }
  }

  lemma PlaneWritesHead(p: Params, w: World, k: Worker, crt: Bytes, inp: Input)
    requires Serviceable(p, w, crt) && Coherent(p, w, k, crt) && (k.CreatingPlane? || k.Upgrading?)
    ensures Heads(p, w, Serve(p, w, RequestOf(p, k), inp).0, crt)
  {
    PlaneWritesAim(p, w, k, crt, inp);
    ServeKeepsStores(p, w, k, inp);
    SameAimHeads(p, w, Serve(p, w, RequestOf(p, k), inp).0, crt);
  }

  lemma PlaneWritesAware(p: Params, w: World, k: Worker, crt: Bytes, inp: Input)
    requires Serviceable(p, w, crt) && Coherent(p, w, k, crt) && (k.CreatingPlane? || k.Upgrading?)
    ensures var (w', r) := Serve(p, w, RequestOf(p, k), inp);
            Aware(p, w', Resume(p, k, r, inp), crt)
  {
    if k.CreatingPlane? {
      CreationGoal(p, w, k.ncp, crt, inp);
      CreationAware(p, w, k.ncp, crt, inp);
    } else {
      UpgradeStops(p, k, Serve(p, w, RequestOf(p, k), inp).1, inp);
    }
  }

  lemma CreationAware(p: Params, w: World, ncp: ControlPlane, crt: Bytes, inp: Input)
    requires ServiceOK(w.svc) && Cur(w).obj == Some(ncp)
    ensures var (w', r) := Serve(p, w, CreatePlane(p.name, ncp.spec.version), inp);
            Aware(p, w', Resume(p, CreatingPlane(ncp), r, inp), crt)
  {
  }

  lemma UpgradeStops(p: Params, k: Worker, r: Reply, inp: Input)
    requires k.Upgrading?
    ensures Stopped(Resume(p, k, r, inp))
  {
  }

  // ---- Any request ----

  /** No request of an undisturbed controller, lost, refused or answered, moves
      the goal, and the controller stays aware of the stores. */
  lemma StepHeads(p: Params, w: World, k: Worker, crt: Bytes, inp: Input)
    requires Serviceable(p, w, crt) && Coherent(p, w, k, crt) && inp.lag == 0
    ensures var (w', k') := Step(p, w, k, inp);
            Heads(p, w, w', crt) && Coherent(p, w', k', crt)
  {
    StepKeepsInv(p, State(w, k), inp);
    ServeHeads(p, w, k, crt, inp);
    var (w', r) := Serve(p, w, RequestOf(p, k), inp);
    match inp.outcome
    case Success => ResumeAware(p, w, k, crt, inp);
    case Fails => UnansweredAware(p, w, k, crt, inp);
    case ReplyLost => UnansweredAware(p, w, k, crt, inp);
  }

  lemma NoDeletion(p: Params, w: World, k: Worker, crt: Bytes)
    requires Serviceable(p, w, crt) && Coherent(p, w, k, crt)
    ensures Stopped(k) || Reads(k) || ObjectWrite(k) || SecretWrite(k) || k.CreatingPlane? || k.Upgrading?
  {
  }

  lemma ServeHeads(p: Params, w: World, k: Worker, crt: Bytes, inp: Input)
    requires Serviceable(p, w, crt) && Coherent(p, w, k, crt) && inp.lag == 0
    ensures Heads(p, w, Serve(p, w, RequestOf(p, k), inp).0, crt)
  {
    NoDeletion(p, w, k, crt);
    if Reads(k) {
      ServiceableBasics(p, w, crt);
      ReadsAware(p, w, k, crt, inp);
    } else if ObjectWrite(k) {
      ObjectWritesHead(p, w, k, crt, inp);
    } else if SecretWrite(k) {
      SecretWritesHead(p, w, k, crt, inp);
    } else if !Stopped(k) {
      PlaneWritesHead(p, w, k, crt, inp);
    }
  }

  lemma ResumeAware(p: Params, w: World, k: Worker, crt: Bytes, inp: Input)
    requires Serviceable(p, w, crt) && Coherent(p, w, k, crt) && inp.lag == 0
    ensures var (w', r) := Serve(p, w, RequestOf(p, k), inp);
            Aware(p, w', Resume(p, k, r, inp), crt)
  {
    NoDeletion(p, w, k, crt);
    if Reads(k) {
      ServiceableBasics(p, w, crt);
      ReadsAware(p, w, k, crt, inp);
    } else if ObjectWrite(k) {
      ObjectWritesAware(p, w, k, crt, inp);
    } else if SecretWrite(k) {
      SecretWritesAware(p, w, k, crt, inp);
    } else if !Stopped(k) {
      PlaneWritesAware(p, w, k, crt, inp);
    }
  }

  lemma UnansweredStops(p: Params, k: Worker, inp: Input)
    requires !k.RecheckingCa?
    ensures Stopped(Resume(p, k, Unavailable, inp))
  {
  }

  lemma UnansweredAware(p: Params, w: World, k: Worker, crt: Bytes, inp: Input)
    requires Serviceable(p, w, crt) && Coherent(p, w, k, crt) && inp.lag == 0
    ensures Aware(p, w, Resume(p, k, Unavailable, inp), crt)
    ensures Aware(p, Serve(p, w, RequestOf(p, k), inp).0, Resume(p, k, Unavailable, inp), crt)
  {
    if k.RecheckingCa? {
      CaSecretReadsAware(p, w, k, crt, inp);
    } else {
      UnansweredStops(p, k, inp);
    }
  }
}
