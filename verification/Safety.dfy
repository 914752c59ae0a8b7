/** What every run keeps, whatever is read stale, lost, edited or crashed. */
module Safety {
  import opened Domain
  import opened Stores
  import opened Controller
  import opened Runs

  /** How the stored object may change over any stretch of time. */
  ghost predicate Evolves(a: Option<ControlPlane>, b: Option<ControlPlane>) {
    b.Some? ==>
      && a.Some?
      && a.value.rv <= b.value.rv
      && (a.value.rv == b.value.rv ==> a == b)
      && (a.value.deleting ==> b.value.deleting)
      && (a.value.status.initialized ==> b.value.status.initialized)
  }

  ghost predicate InStep(o: Option<ControlPlane>, rev: nat) {
    o.Some? ==>
      && o.value.rv <= rev
      && o.value.status.ready == o.value.status.initialized
      && Survives(o.value) == o
  }

  /** The first snapshot that shows the object; the end of the log until then. */
  function Since(w: World): nat {
    if w.born.Some? then w.born.value else |w.log|
  }

  ghost predicate LogOK(w: World) {
    && (w.born.Some? ==> w.born.value < |w.log|)
    && (forall i :: 0 <= i < |w.log| ==> InStep(w.log[i].obj, w.rev))
    && (forall i :: 0 <= i < |w.log| && i < Since(w) ==> w.log[i].obj.None?)
    && (forall i, j :: Since(w) <= i <= j < |w.log| ==> Evolves(w.log[i].obj, w.log[j].obj))
  }

  ghost predicate Seen(log: Log, o: ControlPlane) {
    exists i :: 0 <= i < |log| && log[i].obj == Some(o)
  }

  /** The ID resolvePlaneID returns for a copy that has one. */
  function IdOf(ncp: ControlPlane): string {
    if ncp.spec.planeID != "" then ncp.spec.planeID else ncp.status.planeID
  }

  predicate CtxOK(c: Ctx) {
    && c.ncp.finalizer
    && c.id == IdOf(c.ncp)
    && c.plane.status == READY
    && c.plane.version == c.ncp.spec.version
  }

  predicate Surfaced(c: Ctx) {
    CtxOK(c) && c.ncp.spec.endpoint == Desired(c.plane)
  }

  predicate Unidentified(ncp: ControlPlane) {
    ncp.finalizer && ncp.spec.planeID == "" && ncp.status.planeID == ""
  }

  /** What a location says about the data it holds. */
  predicate Placed(k: Worker) {
    var ok := match k
      case Idle => true
      case Done(_) => true
      case Reading => true
      case CheckingOwner(_) => true
      case AddingFinalizer(ncp) => !ncp.finalizer
      case Authenticating(ncp) => ncp.finalizer
      case CreatingPlane(ncp) => Unidentified(ncp) && !ncp.deleting
      case LookingUp(ncp) => Unidentified(ncp) && !ncp.deleting
      case PersistingID(ncp, id) => Unidentified(ncp) && !ncp.deleting && id != ""
      case GettingPlane(ncp, id) => ncp.finalizer && id == IdOf(ncp)
      case Upgrading(ncp, id) => ncp.finalizer && id == IdOf(ncp)
      case WritingEndpoint(c) => CtxOK(c)
      case DeletingPlane(ncp) => ncp.finalizer && ncp.deleting && ncp.status.planeID != ""
      case RemovingFinalizer(ncp) => ncp.finalizer && ncp.deleting
      case _ => Surfaced(k.ctx);
    ok
  }

  ghost predicate Inv(s: State) {
    && LogOK(s.w)
    && ServiceOK(s.w.svc)
    && (Copy(s.k).Some? ==> Seen(s.w.log, Copy(s.k).value))
    && Placed(s.k)
  }

  // ---- The log ----

  lemma CommitKeepsLog(w: World, c: Snapshot)
    requires LogOK(w) && Evolves(Cur(w).obj, c.obj) && InStep(c.obj, w.rev + 1)
    ensures LogOK(Commit(w, c))
  {
    var w' := Commit(w, c);
    forall i, j | Since(w') <= i <= j < |w'.log| ensures Evolves(w'.log[i].obj, w'.log[j].obj) {
      if j == |w.log| && i < j {
        assert Evolves(w.log[i].obj, Cur(w).obj);
      }
    }
  }

  /** An object write that the store accepts, seen from the log. */
  ghost predicate GoodWrite(o: ControlPlane, n: ControlPlane) {
    && n.rv == o.rv
    && (o.deleting ==> n.deleting)
    && (o.status.initialized ==> n.status.initialized)
    && n.status.ready == n.status.initialized
  }

  lemma StoreKeepsLog(w: World, o: ControlPlane, n: ControlPlane)
    requires LogOK(w) && Cur(w).obj == Some(o) && GoodWrite(o, n)
    ensures LogOK(StoreObject(w, o, n))
    ensures Survives(n).Some? ==> Seen(StoreObject(w, o, n).log, Stamped(w, o, n))
  {
    if n != o {
      var c := Cur(w).(obj := Survives(n.(rv := w.rev + 1)));
      CommitKeepsLog(w, c);
      assert Commit(w, c).log[|w.log|] == c;
    } else {
      assert w.log[|w.log| - 1].obj == Some(o);
    }
  }

  /** The heart of optimistic locking: a copy whose resourceVersion is the
      stored one is the stored object. */
  lemma CopyIsCurrent(w: World, copy: ControlPlane)
    requires LogOK(w) && Seen(w.log, copy)
    requires Cur(w).obj.Some? && Cur(w).obj.value.rv == copy.rv
    ensures Cur(w).obj == Some(copy)
  {
    var i :| 0 <= i < |w.log| && w.log[i].obj == Some(copy);
    assert Evolves(w.log[i].obj, w.log[|w.log| - 1].obj);
  }

  lemma SeenGrows(a: Log, b: Log, o: ControlPlane)
    requires Seen(a, o) && a <= b
    ensures Seen(b, o)
  {
    var i :| 0 <= i < |a| && a[i].obj == Some(o);
    assert b[i].obj == Some(o);
  }

  // ---- One request ----

  /** The object write a location may have pending. */
  function Written(k: Worker): Option<ControlPlane> {
    match k
    case AddingFinalizer(ncp) => Some(ncp.(finalizer := true))
    case RemovingFinalizer(ncp) => Some(ncp.(finalizer := false))
    case WritingEndpoint(c) => Some(WithEndpoint(c))
    case PersistingID(ncp, id) => Some(WithID(ncp, id))
    case Committing(c) => Some(Committed(c))
    case _ => None
  }

  predicate Accepted(p: Params, w: World, k: Worker) {
    match RequestOf(p, k)
    case PutObject(copy) => UpdateAccepted(w, copy)
    case PutStatus(copy) => StatusAccepted(w, copy)
    case _ => false
  }

  /** Although a write sends a whole copy, what reaches the store is exactly the
      one field the location edits, on top of the object stored at that moment. */
  lemma WriteIsExact(p: Params, w: World, k: Worker, inp: Input)
    requires Inv(State(w, k)) && Accepted(p, w, k)
    ensures Written(k).Some? && Copy(k).Some?
    ensures Cur(w).obj == Some(Copy(k).value)
    ensures GoodWrite(Copy(k).value, Written(k).value)
    ensures Serve(p, w, RequestOf(p, k), inp)
         == (StoreObject(w, Copy(k).value, Written(k).value), Object(Stamped(w, Copy(k).value, Written(k).value)))
  {
    CopyIsCurrent(w, Copy(k).value);
    assert InStep(w.log[|w.log| - 1].obj, w.rev);
  }

  predicate WritesObject(c: Call) {
    c.PutObject? || c.PutStatus?
  }

  predicate WritesSecret(c: Call) {
    c.CreateSecret? || c.PutSecret? || c.DeleteSecret?
  }

  predicate WritesPlane(c: Call) {
    c.CreatePlane? || c.UpdatePlane? || c.DeletePlane?
  }

  lemma SecretsKeepLog(w: World, secrets: map<SecretKey, Secret>)
    requires LogOK(w)
    ensures LogOK(Commit(w, Cur(w).(secrets := secrets)))
  {
    CommitKeepsLog(w, Cur(w).(secrets := secrets));
  }

  lemma SecretCallsKeepLog(p: Params, w: World, c: Call, inp: Input)
    requires LogOK(w) && WritesSecret(c)
    ensures var w' := Serve(p, w, c, inp).0;
            LogOK(w') && w'.svc == w.svc && w.log <= w'.log
  {
    if c.DeleteSecret? {
      SecretsKeepLog(w, Cur(w).secrets - {c.key});
    } else {
      SecretsKeepLog(w, Cur(w).secrets[c.key := c.secret.(rv := w.rev + 1)]);
    }
  }

  lemma PlaneCallsKeepService(p: Params, w: World, c: Call, inp: Input)
    requires ServiceOK(w.svc) && WritesPlane(c)
    ensures var w' := Serve(p, w, c, inp).0;
            ServiceOK(w'.svc) && w'.log == w.log && w'.rev == w.rev
  {
    if c.CreatePlane? {
      if c.name !in w.svc.names && w.svc.next.Some? { WithPlaneOK(w.svc, c.name, c.version); }
    } else if c.DeletePlane? {
      if c.id in w.svc.planes { WithoutPlaneOK(w.svc, c.id); }
    } else if c.id in w.svc.planes {
      WithVersionOK(w.svc, c.id, c.version);
    }
  }

  lemma ReadsKeepWorld(p: Params, w: World, c: Call, inp: Input)
    requires !WritesObject(c) && !WritesSecret(c) && !WritesPlane(c)
    ensures Serve(p, w, c, inp).0 == w
  {
  }

  lemma OtherCallsKeepStores(p: Params, w: World, c: Call, inp: Input)
    requires LogOK(w) && ServiceOK(w.svc) && !WritesObject(c)
    ensures var w' := Serve(p, w, c, inp).0;
            LogOK(w') && ServiceOK(w'.svc) && w.log <= w'.log
  {
    if WritesSecret(c) {
      SecretCallsKeepLog(p, w, c, inp);
    } else if WritesPlane(c) {
      PlaneCallsKeepService(p, w, c, inp);
    } else {
      ReadsKeepWorld(p, w, c, inp);
    }
  }

  lemma ServeKeepsStores(p: Params, w: World, k: Worker, inp: Input)
    requires Inv(State(w, k))
    ensures var w' := Serve(p, w, RequestOf(p, k), inp).0;
            LogOK(w') && ServiceOK(w'.svc) && w.log <= w'.log
  {
    if !WritesObject(RequestOf(p, k)) {
      OtherCallsKeepStores(p, w, RequestOf(p, k), inp);
    } else if Accepted(p, w, k) {
      WriteIsExact(p, w, k, inp);
      StoreKeepsLog(w, Copy(k).value, Written(k).value);
    }
  }

  /** A reply as far as the code that receives it can tell. */
  predicate Fits(k: Worker, r: Reply) {
    && (r.Object? && Written(k).Some? ==> r.obj == Written(k).value.(rv := r.obj.rv))
    && (r.PlaneIs? ==> r.plane.id != "")
  }

  lemma ServeFits(p: Params, w: World, k: Worker, inp: Input)
    requires Inv(State(w, k))
    ensures Fits(k, Serve(p, w, RequestOf(p, k), inp).1)
  {
    if WritesObject(RequestOf(p, k)) {
      if Accepted(p, w, k) {
        WriteIsExact(p, w, k, inp);
      }
    } else {
      assert Written(k).None?;
    }
  }

  lemma ResumePlaced(p: Params, k: Worker, r: Reply, inp: Input)
    requires Placed(k) && Fits(k, r)
    ensures Placed(Resume(p, k, r, inp))
  {
  }

  lemma ResumeCopy(p: Params, k: Worker, r: Reply, inp: Input)
    ensures var k' := Resume(p, k, r, inp);
            Copy(k').Some? ==> Copy(k') == Copy(k) || (r.Object? && Copy(k') == Some(r.obj))
    ensures !r.Object? && Copy(Resume(p, k, r, inp)).Some? ==> Copy(Resume(p, k, r, inp)) == Copy(k)
    ensures k.RemovingFinalizer? ==> Copy(Resume(p, k, r, inp)).None?
  {
  }

  lemma ReplySeen(p: Params, w: World, k: Worker, inp: Input)
    requires Inv(State(w, k)) && !k.RemovingFinalizer?
    ensures var (w', r) := Serve(p, w, RequestOf(p, k), inp);
            r.Object? ==> Seen(w'.log, r.obj)
  {
    if Accepted(p, w, k) {
      WriteIsExact(p, w, k, inp);
      StoreKeepsLog(w, Copy(k).value, Written(k).value);
    }
  }

  /** What has to be known of the next state, however it came about. */
  lemma NextInv(s: State, w': World, k': Worker)
    requires Inv(s) && LogOK(w') && ServiceOK(w'.svc) && s.w.log <= w'.log && Placed(k')
    requires Copy(k').Some? && Copy(k') != Copy(s.k) ==> Seen(w'.log, Copy(k').value)
    ensures Inv(State(w', k'))
  {
    if Copy(k').Some? && Copy(k') == Copy(s.k) {
      SeenGrows(s.w.log, w'.log, Copy(k').value);
    }
  }

  lemma RepliedKeepsInv(p: Params, s: State, inp: Input)
    requires Inv(s)
    ensures var (w', r) := Serve(p, s.w, RequestOf(p, s.k), inp);
            Inv(State(w', Resume(p, s.k, r, inp)))
  {
    var (w', r) := Serve(p, s.w, RequestOf(p, s.k), inp);
    ServeKeepsStores(p, s.w, s.k, inp);
    ServeFits(p, s.w, s.k, inp);
    ResumePlaced(p, s.k, r, inp);
    ResumeCopy(p, s.k, r, inp);
    if !s.k.RemovingFinalizer? {
      ReplySeen(p, s.w, s.k, inp);
    }
    NextInv(s, w', Resume(p, s.k, r, inp));
  }

  lemma UnansweredKeepsInv(p: Params, s: State, w': World, inp: Input)
    requires Inv(s) && LogOK(w') && ServiceOK(w'.svc) && s.w.log <= w'.log
    ensures Inv(State(w', Resume(p, s.k, Unavailable, inp)))
  {
    ResumePlaced(p, s.k, Unavailable, inp);
    ResumeCopy(p, s.k, Unavailable, inp);
    NextInv(s, w', Resume(p, s.k, Unavailable, inp));
  }

  lemma StepKeepsInv(p: Params, s: State, inp: Input)
    requires Inv(s)
    ensures Inv(Apply(p, s, Request(inp)))
    ensures s.w.log <= Apply(p, s, Request(inp)).w.log
  {
    ServeKeepsStores(p, s.w, s.k, inp);
    match inp.outcome
    case Success => RepliedKeepsInv(p, s, inp);
    case Fails => UnansweredKeepsInv(p, s, s.w, inp);
    case ReplyLost => UnansweredKeepsInv(p, s, Serve(p, s.w, RequestOf(p, s.k), inp).0, inp);
  }

  // ---- Everybody else ----

  predicate ByUser(l: Label) {
    l.Edit? || l.RequestDelete? || l.SetOtherFinalizers?
  }

  /** The object a user action asks for. */
  function UserWanted(o: ControlPlane, l: Label): ControlPlane
    requires ByUser(l)
  {
    match l
    case Edit(spec) => o.(spec := spec)
    case RequestDelete => o.(deleting := true)
    case _ => o.(otherFinalizers := if o.deleting then o.otherFinalizers && l.on else l.on)
  }

  lemma UserStep(p: Params, s: State, l: Label)
    requires ByUser(l)
    ensures Apply(p, s, l) == if Cur(s.w).obj.None? then s
                              else s.(w := StoreObject(s.w, Cur(s.w).obj.value, UserWanted(Cur(s.w).obj.value, l)))
  {
  }

  lemma UserKeepsInv(p: Params, s: State, l: Label)
    requires Inv(s) && ByUser(l)
    ensures Inv(Apply(p, s, l))
    ensures s.w.log <= Apply(p, s, l).w.log
  {
    UserStep(p, s, l);
    if Cur(s.w).obj.Some? {
      var o := Cur(s.w).obj.value;
      assert InStep(s.w.log[|s.w.log| - 1].obj, s.w.rev);
      StoreKeepsLog(s.w, o, UserWanted(o, l));
      NextInv(s, StoreObject(s.w, o, UserWanted(o, l)), s.k);
    }
  }

  lemma CreationKeepsInv(p: Params, s: State, l: Label)
    requires Inv(s) && l.CreateObject?
    ensures Inv(Apply(p, s, l))
    ensures s.w.log <= Apply(p, s, l).w.log
  {
    NextInv(s, Apply(p, s, l).w, s.k);
  }

  /** Neither the controller nor somebody who writes the object. */
  predicate Aside(l: Label) {
    !l.Request? && !ByUser(l) && !l.CreateObject?
  }

  lemma PlaneChangeKeepsStores(p: Params, s: State, l: Label)
    requires Inv(s) && (l.PlaneChange? || l.Draw?)
    ensures var s' := Apply(p, s, l);
            ServiceOK(s'.w.svc) && s'.w.log == s.w.log && s'.w.rev == s.w.rev && s'.w.born == s.w.born && s'.k == s.k
  {
  }

  lemma SecretEditKeepsStores(p: Params, s: State, l: Label)
    requires Inv(s) && l.SecretEdit?
    ensures var s' := Apply(p, s, l);
            LogOK(s'.w) && s'.w.svc == s.w.svc && s.w.log <= s'.w.log && s'.k == s.k
  {
    SecretsKeepLog(s.w, if l.secret.Some? then Cur(s.w).secrets[l.key := l.secret.value.(rv := s.w.rev + 1)]
                        else Cur(s.w).secrets - {l.key});
  }

  lemma ForeignKeepsStores(p: Params, s: State, l: Label)
    requires Inv(s) && l.Foreign?
    ensures var s' := Apply(p, s, l);
            LogOK(s'.w) && ServiceOK(s'.w.svc) && s.w.log <= s'.w.log && s'.k == s.k
  {
    SecretsKeepLog(s.w, l.change.secrets);
  }

  lemma OthersKeepInv(p: Params, s: State, l: Label)
    requires Inv(s) && Aside(l)
    ensures Inv(Apply(p, s, l))
    ensures s.w.log <= Apply(p, s, l).w.log
  {
    if l.PlaneChange? || l.Draw? {
      PlaneChangeKeepsStores(p, s, l);
    } else if l.SecretEdit? {
      SecretEditKeepsStores(p, s, l);
    } else if l.Foreign? {
      ForeignKeepsStores(p, s, l);
    }
    NextInv(s, Apply(p, s, l).w, Apply(p, s, l).k);
  }

  lemma ApplyKeepsInv(p: Params, s: State, l: Label)
    requires Inv(s)
    ensures Inv(Apply(p, s, l))
    ensures s.w.log <= Apply(p, s, l).w.log
  {
    if l.Request? {
      StepKeepsInv(p, s, l.inp);
    } else if ByUser(l) {
      UserKeepsInv(p, s, l);
    } else if l.CreateObject? {
      CreationKeepsInv(p, s, l);
    } else {
      OthersKeepInv(p, s, l);
    }
  }

  lemma {:induction false} RunKeepsInv(p: Params, s: State, labels: seq<Label>)
    requires Inv(s)
    ensures Inv(Run(p, s, labels))
    ensures s.w.log <= Run(p, s, labels).w.log
  {
    if labels != [] {
      RunKeepsInv(p, s, labels[..|labels| - 1]);
      ApplyKeepsInv(p, Run(p, s, labels[..|labels| - 1]), labels[|labels| - 1]);
    }
  }

  lemma InitInv(s: State)
    requires Init(s)
    ensures Inv(s)
  {
  }
}
