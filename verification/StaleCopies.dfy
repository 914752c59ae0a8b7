/** The fixpoint under stale reads: outdated copies and secrets do no harm to a
    converged world, as long as a copy does not ask for another version or
    another plane; one that does takes the plane back to the older version. */
module StaleCopies {
  import opened Domain
  import opened Stores
  import opened Controller
  import opened Runs
  import opened Safety
  import opened Writes
  import opened Greenfield
  import opened Secrets
  import opened Convergence
  import opened Settling
  import opened StaleReads

  /** The copy leads to the plane the object stands for, in the wanted version. */
  predicate SamePlane(p: Params, ncp: ControlPlane, c: Ctx) {
    IdOf(ncp) == c.id && ncp.spec.version == c.ncp.spec.version && Matched(p, ncp)
  }

  predicate Harmless(p: Params, v: Service, ncp: ControlPlane, c: Ctx) {
    ncp.finalizer ==> if IdOf(ncp) == "" then Own(p, v).Some? else SamePlane(p, ncp, c)
  }

  /** A world at rest. */
  ghost predicate AtRest(p: Params, w: World, c: Ctx) {
    DoneButCa(p, w, c) && HasKey(CaAt(p, Cur(w)))
  }

  /** What a reconcile can hold that has read harmless copies only. */
  predicate HarmlessAt(p: Params, w: World, k: Worker, c: Ctx) {
    && !k.Upgrading? && !Minting(k) && !k.DeletingPlane? && !k.RemovingFinalizer?
    && (k.CheckingOwner? || k.Authenticating? ==> Harmless(p, w.svc, k.ncp, c))
    && (k.CreatingPlane? || k.LookingUp? || k.PersistingID? ==> Own(p, w.svc).Some?)
    && (k.GettingPlane? ==> SamePlane(p, k.ncp, c))
    && (HasCtx(k) ==> SamePlane(p, k.ctx.ncp, c) && k.ctx.plane == c.plane)
    && (k.WritingEndpoint? ==> k.ctx.ncp.spec.endpoint != Desired(c.plane))
    && (k.ReadingKubeconfigSecret? || k.CreatingKubeconfigSecret? || k.UpdatingKubeconfigSecret? ==>
          c.id in w.svc.planes && k.kc == KcOf(p, w, c.id))
  }

  ghost predicate RestInv(p: Params, s: State, c: Ctx) {
    Inv(s) && HistoryInv(p, s) && AtRest(p, s.w, c) && HarmlessAt(p, s.w, s.k, c)
  }

  /** Nothing moved but the record of refused creations. */
  ghost predicate Rests(w: World, w': World) {
    && w'.log == w.log && w'.rev == w.rev && w'.svc == w.svc
    && w.events <= w'.events
    && forall i :: |w.events| <= i < |w'.events| ==> w'.events[i] == CreateConflict
  }

  // ---- Requests ----

  lemma ObjectWritesRest(p: Params, w: World, k: Worker, c: Ctx, inp: Input)
    requires RestInv(p, State(w, k), c) && WritesObject(RequestOf(p, k))
    ensures Serve(p, w, RequestOf(p, k), inp).0 == w
    ensures !k.Committing? ==> Serve(p, w, RequestOf(p, k), inp).1 == Unavailable
  {
    if Accepted(p, w, k) {
      WriteIsExact(p, w, k, inp);
    }
  }

  lemma SecretWritesRest(p: Params, w: World, k: Worker, c: Ctx, inp: Input)
    requires RestInv(p, State(w, k), c) && (k.CreatingKubeconfigSecret? || k.UpdatingKubeconfigSecret?)
    ensures Serve(p, w, RequestOf(p, k), inp).0 == w
  {
    if k.UpdatingKubeconfigSecret? && SecretUpdateAccepted(w, KubeconfigKey(p.cluster), RequestOf(p, k).secret) {
      SecretIsCurrent(w, KubeconfigKey(p.cluster), k.prior);
    }
  }

  lemma OtherRequestsRest(p: Params, w: World, k: Worker, c: Ctx, inp: Input)
    requires HarmlessAt(p, w, k, c) && !WritesObject(RequestOf(p, k))
    requires !k.CreatingKubeconfigSecret? && !k.UpdatingKubeconfigSecret?
    ensures Rests(w, Serve(p, w, RequestOf(p, k), inp).0)
  {
  }

  lemma ServeRests(p: Params, w: World, k: Worker, c: Ctx, inp: Input)
    requires RestInv(p, State(w, k), c)
    ensures Rests(w, Serve(p, w, RequestOf(p, k), inp).0)
  {
    if WritesObject(RequestOf(p, k)) {
      ObjectWritesRest(p, w, k, c, inp);
    } else if k.CreatingKubeconfigSecret? || k.UpdatingKubeconfigSecret? {
      SecretWritesRest(p, w, k, c, inp);
    } else {
      OtherRequestsRest(p, w, k, c, inp);
    }
  }

  // ---- Replies ----

  /** What is read is harmless: copies of the object, and first looks at the CA. */
  predicate Heeds(p: Params, w: World, k: Worker, c: Ctx, inp: Input) {
    && (k.Reading? && Read(w, inp.lag).obj.Some? ==> Harmless(p, w.svc, Read(w, inp.lag).obj.value, c))
    && LooksWell(p, w, k, inp)
  }

  predicate EarlyPlace(k: Worker) {
    k.Reading? || k.CheckingOwner? || k.Authenticating? || k.CreatingPlane? || k.LookingUp?
  }

  lemma EarlyRepliesHarmless(p: Params, w: World, k: Worker, c: Ctx, inp: Input)
    requires HarmlessAt(p, w, k, c) && Placed(k) && EarlyPlace(k) && Heeds(p, w, k, c, inp)
    requires k.Authenticating? ==> !k.ncp.deleting
    ensures HarmlessAt(p, w, Resume(p, k, Serve(p, w, RequestOf(p, k), inp).1, inp), c)
  {
  }

  lemma PlaneReplyHarmless(p: Params, w: World, k: Worker, c: Ctx, inp: Input)
    requires HarmlessAt(p, w, k, c) && Placed(k) && k.GettingPlane?
    requires c.id in w.svc.planes && w.svc.planes[c.id].plane == c.plane && c.plane.version == c.ncp.spec.version
    ensures HarmlessAt(p, w, Resume(p, k, Serve(p, w, RequestOf(p, k), inp).1, inp), c)
  {
  }

  predicate KubeconfigPlace(k: Worker) {
    k.FetchingKubeconfig? || k.ReadingKubeconfigSecret? || k.CreatingKubeconfigSecret? || k.UpdatingKubeconfigSecret?
  }

  lemma KubeconfigRepliesHarmless(p: Params, w: World, k: Worker, c: Ctx, inp: Input)
    requires HarmlessAt(p, w, k, c) && Placed(k) && KubeconfigPlace(k) && c.id in w.svc.planes
    ensures HarmlessAt(p, w, Resume(p, k, Serve(p, w, RequestOf(p, k), inp).1, inp), c)
  {
  }

  lemma CaReplyHarmless(p: Params, w: World, k: Worker, c: Ctx, inp: Input)
    requires HarmlessAt(p, w, k, c) && k.CheckingCa?
    requires HasKey(CaAt(p, Cur(w))) && LooksWell(p, w, k, inp)
    ensures HarmlessAt(p, w, Resume(p, k, Serve(p, w, RequestOf(p, k), inp).1, inp), c)
  {
  }

  lemma LastReplyHarmless(p: Params, w: World, k: Worker, c: Ctx, inp: Input)
    requires k.Committing? || Stopped(k)
    ensures HarmlessAt(p, w, Resume(p, k, Serve(p, w, RequestOf(p, k), inp).1, inp), c)
  {
  }

  lemma UnansweredHarmless(p: Params, w: World, k: Worker, c: Ctx, inp: Input)
    requires HarmlessAt(p, w, k, c)
    ensures HarmlessAt(p, w, Resume(p, k, Unavailable, inp), c)
  {
  }

  lemma CopyNotDeleting(w: World, copy: ControlPlane)
    requires LogOK(w) && Seen(w.log, copy) && Cur(w).obj.Some? && !Cur(w).obj.value.deleting
    ensures !copy.deleting
  {
    var i :| 0 <= i < |w.log| && w.log[i].obj == Some(copy);
    assert Evolves(w.log[i].obj, w.log[|w.log| - 1].obj);
  }

  lemma RepliesHarmless(p: Params, w: World, k: Worker, c: Ctx, inp: Input)
    requires RestInv(p, State(w, k), c) && Heeds(p, w, k, c, inp)
    ensures HarmlessAt(p, w, Resume(p, k, Serve(p, w, RequestOf(p, k), inp).1, inp), c)
  {
    if EarlyPlace(k) {
      if k.Authenticating? {
        CopyNotDeleting(w, k.ncp);
      }
      EarlyRepliesHarmless(p, w, k, c, inp);
    } else if k.GettingPlane? {
      PlaneReplyHarmless(p, w, k, c, inp);
    } else if KubeconfigPlace(k) {
      KubeconfigRepliesHarmless(p, w, k, c, inp);
    } else if k.CheckingCa? {
      CaReplyHarmless(p, w, k, c, inp);
    } else if k.Committing? || Stopped(k) {
      LastReplyHarmless(p, w, k, c, inp);
    } else {
      ObjectWritesRest(p, w, k, c, inp);
      UnansweredHarmless(p, w, k, c, inp);
    }
  }

  lemma StepRests(p: Params, w: World, k: Worker, c: Ctx, inp: Input)
    requires RestInv(p, State(w, k), c) && Heeds(p, w, k, c, inp)
    ensures var (w', k') := Step(p, w, k, inp);
            Rests(w, w') && HarmlessAt(p, w, k', c)
  {
    ServeRests(p, w, k, c, inp);
    RepliesHarmless(p, w, k, c, inp);
    UnansweredHarmless(p, w, k, c, inp);
  }

  lemma RestsOn(p: Params, s: State, s': State, c: Ctx)
    requires RestInv(p, s, c) && Inv(s') && HistoryInv(p, s')
    requires Rests(s.w, s'.w) && HarmlessAt(p, s.w, s'.k, c)
    ensures RestInv(p, s', c)
  {
  }

  lemma ActRests(p: Params, s: State, l: Label, c: Ctx)
    requires RestInv(p, s, c) && (l.Start? || l.Crash? || l.Request?)
    requires l.Request? ==> Heeds(p, s.w, s.k, c, l.inp)
    ensures Rests(s.w, Apply(p, s, l).w) && HarmlessAt(p, s.w, Apply(p, s, l).k, c)
  {
    if l.Request? {
      StepRests(p, s.w, s.k, c, l.inp);
    }
  }

  lemma ActKeepsRest(p: Params, s: State, l: Label, c: Ctx)
    requires RestInv(p, s, c) && (l.Start? || l.Crash? || l.Request?)
    requires l.Request? ==> Heeds(p, s.w, s.k, c, l.inp)
    ensures RestInv(p, Apply(p, s, l), c) && Rests(s.w, Apply(p, s, l).w)
  {
    ActRests(p, s, l, c);
    ApplyKeepsInv(p, s, l);
    ApplyKeepsHistory(p, s, l);
    RestsOn(p, s, Apply(p, s, l), c);
  }

  // ---- Runs ----

  ghost predicate HeedfulRun(p: Params, s: State, labels: seq<Label>, c: Ctx) {
    forall n :: 0 <= n < |labels| && labels[n].Request? ==>
      Heeds(p, Run(p, s, labels[..n]).w, Run(p, s, labels[..n]).k, c, labels[n].inp)
  }

  lemma HeedfulBefore(p: Params, s: State, labels: seq<Label>, c: Ctx)
    requires labels != [] && HeedfulRun(p, s, labels, c)
    ensures HeedfulRun(p, s, labels[..|labels| - 1], c)
  {
    var before := labels[..|labels| - 1];
    assert forall n :: 0 <= n < |before| ==> before[..n] == labels[..n];
  }

  lemma {:induction false} RunRests(p: Params, s: State, labels: seq<Label>, c: Ctx)
    requires RestInv(p, s, c) && OwnActs(labels) && HeedfulRun(p, s, labels, c)
    ensures RestInv(p, Run(p, s, labels), c) && Rests(s.w, Run(p, s, labels).w)
  {
    if labels != [] {
      var before, l := labels[..|labels| - 1], labels[|labels| - 1];
      assert l in labels;
      HeedfulBefore(p, s, labels, c);
      RunRests(p, s, before, c);
      ActKeepsRest(p, Run(p, s, before), l, c);
    }
  }

  /** What a reconcile of a converged world finds. */
  ghost predicate Found(w: World, c: Ctx) {
    && Cur(w).obj == Some(c.ncp) && c.id == c.ncp.status.planeID
    && c.id in w.svc.planes && c.plane == w.svc.planes[c.id].plane
  }

  lemma ConvergedRestInv(p: Params, s: State, past: seq<Label>, crt: Bytes, c: Ctx)
    requires Init(s)
    requires var t := Run(p, s, past);
             Stopped(t.k) && Serviceable(p, t.w, crt) && Converged(p, t.w, crt) && Found(t.w, c)
    ensures RestInv(p, Run(p, s, past), c)
  {
    ReachedHistory(p, s, past);
    ConvergedIsDone(p, Run(p, s, past).w, crt);
    StoppedRests(p, Run(p, s, past), c);
  }

  lemma ReachedHistory(p: Params, s: State, past: seq<Label>)
    requires Init(s)
    ensures Inv(Run(p, s, past)) && HistoryInv(p, Run(p, s, past))
  {
    InitInv(s);
    RunKeepsInv(p, s, past);
    InitHistory(p, s);
    RunKeepsHistory(p, s, past);
  }

  lemma StoppedRests(p: Params, s: State, c: Ctx)
    requires Inv(s) && HistoryInv(p, s) && AtRest(p, s.w, c) && Stopped(s.k)
    ensures RestInv(p, s, c)
  {
  }

  /** The fixpoint under stale reads: once a run has converged, no sequence of
      whole, faulty or cut reconciles changes anything in either store, however
      outdated their reads, as long as copies of the object lead to its plane in
      the wanted version and first looks at the CA secret show its key. Creations
      may be asked for, but are refused. */
  lemma StaleFixpoint(p: Params, s: State, past: seq<Label>, labels: seq<Label>, crt: Bytes, c: Ctx)
    requires Init(s) && OwnActs(labels)
    requires var t := Run(p, s, past);
             && Stopped(t.k) && Serviceable(p, t.w, crt) && Converged(p, t.w, crt) && Found(t.w, c)
             && HeedfulRun(p, t, labels, c)
    ensures Rests(Run(p, s, past).w, Run(p, Run(p, s, past), labels).w)
  {
    ConvergedRestInv(p, s, past, crt, c);
    RunRests(p, Run(p, s, past), labels, c);
  }

  // ---- Where it ends ----

  /** A reconcile that reads the object through an outdated cache, and is
      undisturbed from then on. */
  function AfterStaleCopy(p: Params, w: World, lag: nat, inp: Input): World {
    var (w1, k1) := Step(p, w, Reading, inp.(lag := lag));
    Settle(p, w1, k1, inp).0
  }

  /** The outdated copy leads to the object's plane. */
  ghost predicate OldCopy(p: Params, w: World, lag: nat, c: Ctx, prev: ControlPlane) {
    Read(w, lag).obj == Some(prev) && prev.finalizer && !prev.deleting && IdOf(prev) == c.id && Matched(p, prev)
  }

  lemma ToOldPlane(p: Params, w: World, lag: nat, c: Ctx, prev: ControlPlane, inp: Input)
    requires AtRest(p, w, c) && OldCopy(p, w, lag, c, prev) && Smooth(inp)
    ensures AfterStaleCopy(p, w, lag, inp) == Settle(p, w, GettingPlane(prev, c.id), inp).0
  {
    assert Step(p, w, Reading, inp.(lag := lag)) == (w, CheckingOwner(prev));
    SettleOn(p, w, CheckingOwner(prev), inp, w, Authenticating(prev));
    SettleOn(p, w, Authenticating(prev), inp, w, GettingPlane(prev, c.id));
  }

  lemma UpgradeStep(p: Params, w: World, prev: ControlPlane, id: string, inp: Input)
    requires id in w.svc.planes && inp.outcome.Success?
    ensures var (w', k') := Step(p, w, Upgrading(prev, id), inp);
            && Stopped(k') && w'.log == w.log
            && w'.svc == if p.errors.updateSupported then WithVersion(w.svc, id, prev.spec.version) else w.svc
  {
  }

  lemma DowngradeTail(p: Params, w: World, c: Ctx, prev: ControlPlane, inp: Input)
    requires AtRest(p, w, c) && Smooth(inp) && prev.spec.version != c.ncp.spec.version
    ensures var w' := Settle(p, w, GettingPlane(prev, c.id), inp).0;
            && w'.log == w.log
            && w'.svc == if p.errors.updateSupported then WithVersion(w.svc, c.id, prev.spec.version) else w.svc
  {
    assert Step(p, w, GettingPlane(prev, c.id), inp) == (w, Upgrading(prev, c.id));
    SettleOn(p, w, GettingPlane(prev, c.id), inp, w, Upgrading(prev, c.id));
    var (w1, k1) := Step(p, w, Upgrading(prev, c.id), inp);
    UpgradeStep(p, w, prev, c.id, inp);
    SettleOn(p, w, Upgrading(prev, c.id), inp, w1, k1);
    SettledAlready(p, w1, k1, inp);
  }

  lemma FreshHeeds(p: Params, w: World, k: Worker, c: Ctx, inp: Input)
    requires AtRest(p, w, c) && inp.lag == 0 && !k.Reading?
    ensures Heeds(p, w, k, c, inp)
  {
  }

  lemma RestsTwice(a: World, b: World, c: World)
    requires Rests(a, b) && Rests(b, c)
    ensures Rests(a, c)
  {
  }

  lemma NextRests(p: Params, w: World, k: Worker, c: Ctx, inp: Input)
    requires RestInv(p, State(w, k), c) && inp.lag == 0 && !k.Reading? && !Stopped(k)
    ensures var (w', k') := Step(p, w, k, inp);
            RestInv(p, State(w', k'), c) && Rests(w, w') && !k'.Reading?
  {
    FreshHeeds(p, w, k, c, inp);
    ActKeepsRest(p, State(w, k), Request(inp), c);
    ResumeEnds(p, k, Serve(p, w, RequestOf(p, k), inp).1, inp);
    ResumeEnds(p, k, Unavailable, inp);
  }

  lemma {:induction false} SettleRests(p: Params, w: World, k: Worker, c: Ctx, inp: Input)
    requires RestInv(p, State(w, k), c) && inp.lag == 0 && !k.Reading?
    ensures Rests(w, Settle(p, w, k, inp).0)
    decreases Rank(k)
  {
    if !Stopped(k) {
      var (w1, k1) := Step(p, w, k, inp);
      NextRests(p, w, k, c, inp);
      RankDrops(p, w, k, inp);
      SettleRests(p, w1, k1, c, inp);
      RestsTwice(w, w1, Settle(p, w1, k1, inp).0);
    }
  }

  lemma CopySeen(w: World, lag: nat, prev: ControlPlane)
    requires Read(w, lag).obj == Some(prev)
    ensures Seen(w.log, prev)
  {
    ReadInLog(w, lag);
  }

  lemma OldCopyRests(p: Params, w: World, lag: nat, c: Ctx, prev: ControlPlane, inp: Input)
    requires RestInv(p, State(w, Idle), c) && OldCopy(p, w, lag, c, prev) && Smooth(inp)
    requires prev.spec.version == c.ncp.spec.version
    ensures Rests(w, Settle(p, w, GettingPlane(prev, c.id), inp).0)
  {
    CopySeen(w, lag, prev);
    SettleRests(p, w, GettingPlane(prev, c.id), c, inp);
  }

  /** Exactly when an outdated copy that leads to the object's plane moves it:
      when it asks for another version, the plane is taken to that version,
      unless the client cannot upgrade. Neither the object nor a secret changes. */
  lemma OldVersionDowngrades(p: Params, w: World, lag: nat, c: Ctx, prev: ControlPlane, inp: Input)
    requires RestInv(p, State(w, Idle), c) && OldCopy(p, w, lag, c, prev) && Smooth(inp)
    ensures var w' := AfterStaleCopy(p, w, lag, inp);
            && w'.log == w.log
            && (w'.svc == w.svc <==>
                  || prev.spec.version == c.ncp.spec.version || prev.spec.version == ""
                  || !p.errors.updateSupported)
            && (w'.svc != w.svc ==> c.id in w'.svc.planes && w'.svc.planes[c.id].plane.version == prev.spec.version)
  {
    ToOldPlane(p, w, lag, c, prev, inp);
    if prev.spec.version == c.ncp.spec.version {
      OldCopyRests(p, w, lag, c, prev, inp);
    } else {
      DowngradeTail(p, w, c, prev, inp);
      assert w.svc.planes[c.id].plane.version == c.ncp.spec.version;
    }
  }

  // ---- Any outdated copy ----

  lemma KubeconfigRefills(p: Params, w: World, c: Ctx, kc: Bytes)
    requires AtRest(p, w, c)
    ensures var x := KubeconfigAt(p, Cur(w)).value;
            Refilled(x, KubeconfigSecret(p, kc)) == x <==> kc == KcOf(p, w, c.id)
  {
    var x := KubeconfigAt(p, Cur(w)).value;
    assert x.data == map["value" := KcOf(p, w, c.id)];
    if Refilled(x, KubeconfigSecret(p, kc)) == x {
      assert x.data["value"] == kc;
    }
  }

  /** What a copy asks the service for is another kubeconfig than the stored one. */
  ghost predicate OtherKubeconfig(p: Params, w: World, id: string, c: Ctx) {
    var r := KubeconfigReply(p, w.svc, id);
    c.id in w.svc.planes && r.KubeconfigIs? && r.bytes != KcOf(p, w, c.id)
  }

  /** A copy that names plane v moves something: it has v upgraded, or the
      kubeconfig secret overwritten with another one. */
  ghost predicate MovesByPlane(p: Params, w: World, prev: ControlPlane, v: string, c: Ctx) {
    && v in w.svc.planes
    && var plane := w.svc.planes[v].plane;
       && plane.status == READY
       && if plane.version != prev.spec.version then p.errors.updateSupported && prev.spec.version != ""
          else prev.spec.endpoint == Desired(plane) && OtherKubeconfig(p, w, prev.status.planeID, c)
  }

  /** A copy that names no plane moves something: it has one created. */
  predicate MovesByName(p: Params, w: World) {
    Own(p, w.svc).None? && w.svc.next.Some?
  }

  ghost predicate Harmful(p: Params, w: World, prev: ControlPlane, c: Ctx) {
    prev.finalizer && if IdOf(prev) == "" then MovesByName(p, w) else MovesByPlane(p, w, prev, IdOf(prev), c)
  }

  /** Both stores are as they were. */
  ghost predicate StoresStay(w: World, w': World) {
    w'.log == w.log && w'.svc == w.svc
  }

  lemma CommitTail(p: Params, w: World, w': World, c: Ctx, c': Ctx, inp: Input)
    requires Inv(State(w', Idle)) && Cur(w').obj == Some(c.ncp) && Seen(w'.log, c'.ncp) && AtCtx(w, c) && Smooth(inp)
    requires c.ncp.status == Status(true, true, c.id, c.ncp.spec.version)
    requires c'.ncp == c.ncp ==> c'.id == c.id && c'.plane.version == c.ncp.spec.version
    ensures Settle(p, w', Committing(c'), inp).0 == w'
  {
    var (w1, k1) := Step(p, w', Committing(c'), inp);
    if StatusAccepted(w', Committed(c')) {
      CopyIsCurrent(w', c'.ncp);
    }
    assert w1 == w';
    SettleOn(p, w', Committing(c'), inp, w1, k1);
    SettledAlready(p, w1, k1, inp);
  }

  lemma CaTail(p: Params, w: World, c: Ctx, inp: Input)
    requires HasKey(CaAt(p, Cur(w))) && Smooth(inp)
    ensures Settle(p, w, CheckingCa(c), inp) == Settle(p, w, Committing(c), inp)
  {
    assert Step(p, w, CheckingCa(c), inp) == (w, Committing(c));
    SettleOn(p, w, CheckingCa(c), inp, w, Committing(c));
  }

  lemma SecretStep(p: Params, w: World, c': Ctx, kc: Bytes, x: Secret, inp: Input)
    requires KubeconfigAt(p, Cur(w)) == Some(x) && Smooth(inp)
    ensures var y := Refilled(x, KubeconfigSecret(p, kc));
            var w' := if y == x then w else SetSecret(w, KubeconfigKey(p.cluster), y);
            Step(p, w, UpdatingKubeconfigSecret(c', kc, x), inp) == (w', CheckingCa(c'))
  {
  }

  /** The copy the reconcile works with, and the plane it has read for it. */
  ghost predicate Worked(p: Params, w: World, c: Ctx, c': Ctx) {
    && RestInv(p, State(w, Idle), c) && Seen(w.log, c'.ncp)
    && (c'.ncp == c.ncp ==> c'.id == c.id && c'.plane.version == c.ncp.spec.version)
  }

  lemma SecretTail(p: Params, w: World, c: Ctx, c': Ctx, kc: Bytes, inp: Input)
    requires Worked(p, w, c, c') && Smooth(inp)
    ensures var w' := Settle(p, w, UpdatingKubeconfigSecret(c', kc, KubeconfigAt(p, Cur(w)).value), inp).0;
            StoresStay(w, w') <==> kc == KcOf(p, w, c.id)
  {
    var x := KubeconfigAt(p, Cur(w)).value;
    var y := Refilled(x, KubeconfigSecret(p, kc));
    var w1 := if y == x then w else SetSecret(w, KubeconfigKey(p.cluster), y);
    KubeconfigRefills(p, w, c, kc);
    SecretStep(p, w, c', kc, x, inp);
    SettleOn(p, w, UpdatingKubeconfigSecret(c', kc, x), inp, w1, CheckingCa(c'));
    RefilledWorld(p, w, w1, c, c', y);
    CaTail(p, w1, c', inp);
    CommitTail(p, w, w1, c, c', inp);
  }

  lemma RefilledWorld(p: Params, w: World, w1: World, c: Ctx, c': Ctx, y: Secret)
    requires RestInv(p, State(w, Idle), c) && Seen(w.log, c'.ncp)
    requires w1 == w || w1 == SetSecret(w, KubeconfigKey(p.cluster), y)
    ensures Inv(State(w1, Idle)) && Seen(w1.log, c'.ncp) && Cur(w1).obj == Some(c.ncp) && HasKey(CaAt(p, Cur(w1)))
  {
    SecretKeysApart(p.cluster, p.cluster);
    if w1 != w {
      SecretsKeepLog(w, Cur(w).secrets[KubeconfigKey(p.cluster) := y.(rv := w.rev + 1)]);
      SeenGrows(w.log, w1.log, c'.ncp);
    }
  }

  lemma FetchTail(p: Params, w: World, c: Ctx, c': Ctx, inp: Input)
    requires Worked(p, w, c, c') && Smooth(inp)
    ensures var w' := Settle(p, w, FetchingKubeconfig(c'), inp).0;
            StoresStay(w, w') <==> !OtherKubeconfig(p, w, c'.ncp.status.planeID, c)
  {
    var r := KubeconfigReply(p, w.svc, c'.ncp.status.planeID);
    if r.KubeconfigIs? {
      var x := KubeconfigAt(p, Cur(w)).value;
      assert Step(p, w, FetchingKubeconfig(c'), inp) == (w, ReadingKubeconfigSecret(c', r.bytes));
      assert Step(p, w, ReadingKubeconfigSecret(c', r.bytes), inp) == (w, UpdatingKubeconfigSecret(c', r.bytes, x));
      SettleOn(p, w, FetchingKubeconfig(c'), inp, w, ReadingKubeconfigSecret(c', r.bytes));
      SettleOn(p, w, ReadingKubeconfigSecret(c', r.bytes), inp, w, UpdatingKubeconfigSecret(c', r.bytes, x));
      SecretTail(p, w, c, c', r.bytes, inp);
    } else {
      assert Step(p, w, FetchingKubeconfig(c'), inp) == (w, Done(Failed));
      SettleOn(p, w, FetchingKubeconfig(c'), inp, w, Done(Failed));
      SettledAlready(p, w, Done(Failed), inp);
    }
  }

  lemma EndpointTail(p: Params, w: World, c: Ctx, c': Ctx, inp: Input)
    requires Inv(State(w, Idle)) && Cur(w).obj == Some(c.ncp) && Seen(w.log, c'.ncp) && c'.ncp != c.ncp && Smooth(inp)
    ensures Settle(p, w, WritingEndpoint(c'), inp).0 == w
  {
    if UpdateAccepted(w, WithEndpoint(c')) {
      CopyIsCurrent(w, c'.ncp);
    }
    assert Step(p, w, WritingEndpoint(c'), inp) == (w, Done(Failed));
    SettleOn(p, w, WritingEndpoint(c'), inp, w, Done(Failed));
    SettledAlready(p, w, Done(Failed), inp);
  }

  lemma UpgradeTail(p: Params, w: World, prev: ControlPlane, v: string, inp: Input)
    requires v in w.svc.planes && w.svc.planes[v].plane.version != prev.spec.version && Smooth(inp)
    ensures var w' := Settle(p, w, Upgrading(prev, v), inp).0;
            StoresStay(w, w') <==> !(p.errors.updateSupported && prev.spec.version != "")
  {
    var (w1, k1) := Step(p, w, Upgrading(prev, v), inp);
    UpgradeStep(p, w, prev, v, inp);
    SettleOn(p, w, Upgrading(prev, v), inp, w1, k1);
    SettledAlready(p, w1, k1, inp);
    if p.errors.updateSupported && prev.spec.version != "" {
      assert w1.svc.planes[v].plane.version == prev.spec.version;
    }
  }

  lemma PlaneTail(p: Params, w: World, c: Ctx, prev: ControlPlane, inp: Input)
    requires RestInv(p, State(w, Idle), c) && Seen(w.log, prev) && IdOf(prev) != "" && Smooth(inp)
    ensures var w' := Settle(p, w, GettingPlane(prev, IdOf(prev)), inp).0;
            StoresStay(w, w') <==> !MovesByPlane(p, w, prev, IdOf(prev), c)
  {
    var v := IdOf(prev);
    var next := if v in w.svc.planes then WithPlaneRead(prev, v, w.svc.planes[v].plane) else Done(Failed);
    assert Step(p, w, GettingPlane(prev, v), inp) == (w, next);
    SettleOn(p, w, GettingPlane(prev, v), inp, w, next);
    if Stopped(next) {
      SettledAlready(p, w, next, inp);
    } else if next.Upgrading? {
      UpgradeTail(p, w, prev, v, inp);
    } else if next.WritingEndpoint? {
      EndpointTail(p, w, c, next.ctx, inp);
    } else {
      FetchTail(p, w, c, next.ctx, inp);
    }
  }

  lemma PersistTail(p: Params, w: World, c: Ctx, prev: ControlPlane, id: string, inp: Input)
    requires Inv(State(w, Idle)) && Cur(w).obj == Some(c.ncp) && Seen(w.log, prev) && prev != c.ncp && Smooth(inp)
    ensures Settle(p, w, PersistingID(prev, id), inp).0 == w
  {
    if StatusAccepted(w, WithID(prev, id)) {
      CopyIsCurrent(w, prev);
    }
    assert Step(p, w, PersistingID(prev, id), inp) == (w, Done(Failed));
    SettleOn(p, w, PersistingID(prev, id), inp, w, Done(Failed));
    SettledAlready(p, w, Done(Failed), inp);
  }

  lemma LookupTail(p: Params, w: World, c: Ctx, prev: ControlPlane, inp: Input)
    requires Inv(State(w, Idle)) && Cur(w).obj == Some(c.ncp) && Seen(w.log, prev) && prev != c.ncp && Smooth(inp)
    ensures Settle(p, w, LookingUp(prev), inp).0 == w
  {
    var (w1, k1) := Step(p, w, LookingUp(prev), inp);
    assert w1 == w && (k1.PersistingID? ==> k1.ncp == prev);
    SettleOn(p, w, LookingUp(prev), inp, w1, k1);
    if k1.PersistingID? {
      PersistTail(p, w, c, prev, k1.id, inp);
    } else {
      SettledAlready(p, w1, k1, inp);
    }
  }

  /** A refused creation, or one that happens. */
  lemma CreationOutcome(p: Params, w: World, prev: ControlPlane, inp: Input)
    requires Smooth(inp) && ServiceOK(w.svc)
    ensures var (w', k') := Step(p, w, CreatingPlane(prev), inp);
            && w'.log == w.log && w'.rev == w.rev && w'.born == w.born && ServiceOK(w'.svc)
            && (w'.svc == w.svc <==> !MovesByName(p, w))
            && (k' == LookingUp(prev) || (k'.PersistingID? && k'.ncp == prev) || Stopped(k'))
  {
    if MovesByName(p, w) {
      WithPlaneOK(w.svc, p.name, prev.spec.version);
    }
  }

  lemma UnidentifiedTail(p: Params, w: World, c: Ctx, prev: ControlPlane, inp: Input)
    requires Inv(State(w, Idle)) && Cur(w).obj == Some(c.ncp) && Seen(w.log, prev) && prev != c.ncp && Smooth(inp)
    ensures StoresStay(w, Settle(p, w, CreatingPlane(prev), inp).0) <==> !MovesByName(p, w)
  {
    var (w1, k1) := Step(p, w, CreatingPlane(prev), inp);
    CreationOutcome(p, w, prev, inp);
    SettleOn(p, w, CreatingPlane(prev), inp, w1, k1);
    if k1.LookingUp? {
      LookupTail(p, w1, c, prev, inp);
    } else if k1.PersistingID? {
      PersistTail(p, w1, c, prev, k1.id, inp);
    } else {
      SettledAlready(p, w1, k1, inp);
    }
  }

  lemma FinalizerTail(p: Params, w: World, c: Ctx, prev: ControlPlane, inp: Input)
    requires Inv(State(w, Idle)) && Cur(w).obj == Some(c.ncp) && Seen(w.log, prev) && prev != c.ncp && Smooth(inp)
    ensures Settle(p, w, AddingFinalizer(prev), inp).0 == w
  {
    if UpdateAccepted(w, prev.(finalizer := true)) {
      CopyIsCurrent(w, prev);
    }
    assert Step(p, w, AddingFinalizer(prev), inp) == (w, Done(Failed));
    SettleOn(p, w, AddingFinalizer(prev), inp, w, Done(Failed));
    SettledAlready(p, w, Done(Failed), inp);
  }

  lemma CopyRoute(p: Params, w: World, lag: nat, prev: ControlPlane, inp: Input)
    requires Read(w, lag).obj == Some(prev) && !prev.deleting && Smooth(inp)
    ensures AfterStaleCopy(p, w, lag, inp)
         == Settle(p, w, if prev.finalizer then EnterNormal(prev) else AddingFinalizer(prev), inp).0
  {
    assert Step(p, w, Reading, inp.(lag := lag)) == (w, CheckingOwner(prev));
    if prev.finalizer {
      SettleOn(p, w, CheckingOwner(prev), inp, w, Authenticating(prev));
      SettleOn(p, w, Authenticating(prev), inp, w, EnterNormal(prev));
    } else {
      SettleOn(p, w, CheckingOwner(prev), inp, w, AddingFinalizer(prev));
    }
  }

  /** Exactly which outdated copies of a converged object move something: those
      that name no plane while the object's name is free (one is created), that
      name a ready plane in another version (it is upgraded), or that lead to a
      ready plane with the endpoint they show, but to another kubeconfig (the
      secret is overwritten). */
  lemma StaleCopyDecides(p: Params, w: World, lag: nat, c: Ctx, prev: ControlPlane, inp: Input)
    requires RestInv(p, State(w, Idle), c) && Read(w, lag).obj == Some(prev) && Smooth(inp)
    ensures StoresStay(w, AfterStaleCopy(p, w, lag, inp)) <==> !Harmful(p, w, prev, c)
  {
    CopySeen(w, lag, prev);
    CopyNotDeleting(w, prev);
    CopyRoute(p, w, lag, prev, inp);
    if !prev.finalizer {
      FinalizerTail(p, w, c, prev, inp);
    } else if IdOf(prev) == "" {
      UnidentifiedTail(p, w, c, prev, inp);
    } else {
      PlaneTail(p, w, c, prev, inp);
    }
  }
}
