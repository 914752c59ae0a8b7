/** A move of spec.planeID off a plane that is on record, at a service that goes
    by the ID. The kubeconfig is fetched for the old plane until the new one is
    on record, so the move takes one reconcile more, publishes the old plane's
    kubeconfig on the way, and never ends if the old plane is gone. */
module Moves {
  import opened Domain
  import opened Stores
  import opened Controller
  import opened Runs
  import opened Safety
  import opened Secrets
  import opened Convergence
  import opened Settling
  import opened Brownfield

  /** The object stands for one plane and has another one, or none, on record. */
  ghost predicate Moving(p: Params, w: World, former: string) {
    && p.kubeconfigs.ById? && Cur(w).obj.Some?
    && Cur(w).obj.value.status.planeID == former
    && Cur(w).obj.value.spec.planeID != "" && Cur(w).obj.value.spec.planeID != former
  }

  // ---- The old plane is gone ----

  /** A reconcile of such an object cannot get past its first fetch. */
  ghost predicate Blocked(p: Params, w: World, k: Worker, former: string) {
    && Inv(State(w, k)) && Moving(p, w, former) && former !in w.svc.planes
    && !Cur(w).obj.value.deleting
    && BeforeKubeconfig(k) && !k.RemovingFinalizer?
    && (Copy(k).Some? ==> Copy(k) == Cur(w).obj)
  }

  lemma BlockedObjectWrite(p: Params, w: World, k: Worker, inp: Input, former: string)
    requires Blocked(p, w, k, former) && WritesObject(RequestOf(p, k))
    ensures var (w', r) := Serve(p, w, RequestOf(p, k), inp);
            && Moving(p, w', former) && w'.svc == w.svc && !Cur(w').obj.value.deleting
            && r.Object? && Cur(w').obj == Some(r.obj)
  {
    assert Accepted(p, w, k);
    WriteIsExact(p, w, k, inp);
  }

  lemma BlockedServe(p: Params, w: World, k: Worker, inp: Input, former: string)
    requires Blocked(p, w, k, former)
    ensures var w' := Serve(p, w, RequestOf(p, k), inp).0;
            && Moving(p, w', former) && former !in w'.svc.planes && !Cur(w').obj.value.deleting
            && (!WritesObject(RequestOf(p, k)) ==> Cur(w').obj == Cur(w).obj)
  {
    if WritesObject(RequestOf(p, k)) {
      BlockedObjectWrite(p, w, k, inp, former);
    }
  }

  lemma BlockedReply(p: Params, w: World, k: Worker, inp: Input, former: string)
    requires Blocked(p, w, k, former) && inp.lag == 0
    ensures var (w', r) := Serve(p, w, RequestOf(p, k), inp);
            var k' := Resume(p, k, r, inp);
            BeforeKubeconfig(k') && !k'.RemovingFinalizer? && (Copy(k').Some? ==> Copy(k') == Cur(w').obj)
  {
    if WritesObject(RequestOf(p, k)) {
      BlockedObjectWrite(p, w, k, inp, former);
    } else {
      BlockedServe(p, w, k, inp, former);
    }
  }

  lemma BlockedUnanswered(p: Params, k: Worker, inp: Input)
    requires BeforeKubeconfig(k)
    ensures Stopped(Resume(p, k, Unavailable, inp))
  {
  }

  lemma BlockedStep(p: Params, w: World, k: Worker, inp: Input, former: string)
    requires Blocked(p, w, k, former) && inp.lag == 0
    ensures var (w', k') := Step(p, w, k, inp);
            && Moving(p, w', former) && former !in w'.svc.planes && !Cur(w').obj.value.deleting
            && BeforeKubeconfig(k') && !k'.RemovingFinalizer? && (Copy(k').Some? ==> Copy(k') == Cur(w').obj)
  {
    BlockedServe(p, w, k, inp, former);
    BlockedReply(p, w, k, inp, former);
    BlockedUnanswered(p, k, inp);
  }

  lemma StaysBlocked(p: Params, w: World, k: Worker, inp: Input, former: string)
    requires Blocked(p, w, k, former) && inp.lag == 0
    ensures var (w', k') := Step(p, w, k, inp); Blocked(p, w', k', former)
  {
    StepKeepsInv(p, State(w, k), inp);
    BlockedStep(p, w, k, inp, former);
  }

  lemma {:induction false} SettleBlocked(p: Params, w: World, k: Worker, inp: Input, former: string)
    requires Blocked(p, w, k, former) && inp.lag == 0
    ensures Blocked(p, Settle(p, w, k, inp).0, Idle, former)
    decreases Rank(k)
  {
    if !Stopped(k) {
      var (w1, k1) := Step(p, w, k, inp);
      StaysBlocked(p, w, k, inp, former);
      RankDrops(p, w, k, inp);
      SettleBlocked(p, w1, k1, inp, former);
    }
  }

  lemma {:induction false} ReconcilesBlocked(p: Params, w: World, inps: seq<Input>, former: string)
    requires Blocked(p, w, Idle, former) && forall i :: 0 <= i < |inps| ==> inps[i].lag == 0
    ensures Blocked(p, Reconciles(p, w, inps), Idle, former)
  {
    if inps != [] {
      var before := Reconciles(p, w, inps[..|inps| - 1]);
      ReconcilesBlocked(p, w, inps[..|inps| - 1], former);
      SettleBlocked(p, before, Reading, inps[|inps| - 1], former);
    }
  }

  lemma MovingHasNotConverged(p: Params, w: World, crt: Bytes, former: string)
    requires Moving(p, w, former) && Inv(State(w, Idle))
    ensures !Converged(p, w, crt)
  {
  }

  // ---- The old plane is there ----

  /** The service as long as only the old plane's kubeconfig is asked for. */
  function Seeming(p: Params, kc: Bytes): Params {
    p.(kubeconfigs := Anyone(kc))
  }

  /** The old plane is on record and hands out kc. */
  ghost predicate OnRecord(p: Params, w: World, former: string, kc: Bytes) {
    Moving(p, w, former) && former in w.svc.planes && w.svc.planes[former].kubeconfig == kc
  }

  lemma SameStep(p: Params, kc: Bytes, w: World, k: Worker, inp: Input)
    requires k.FetchingKubeconfig? || k.FetchingCa? ==>
               KubeconfigReply(p, w.svc, k.ctx.ncp.status.planeID) == KubeconfigIs(kc)
    ensures Step(Seeming(p, kc), w, k, inp) == Step(p, w, k, inp)
  {
    var q := Seeming(p, kc);
    assert RequestOf(q, k) == RequestOf(p, k);
    SameServe(p, kc, w, k, inp);
    SameResume(p, kc, k, Serve(p, w, RequestOf(p, k), inp).1, inp);
    SameResume(p, kc, k, Unavailable, inp);
  }

  lemma SameServe(p: Params, kc: Bytes, w: World, k: Worker, inp: Input)
    requires k.FetchingKubeconfig? || k.FetchingCa? ==>
               KubeconfigReply(p, w.svc, k.ctx.ncp.status.planeID) == KubeconfigIs(kc)
    ensures Serve(Seeming(p, kc), w, RequestOf(p, k), inp) == Serve(p, w, RequestOf(p, k), inp)
  {
  }

  lemma SameResume(p: Params, kc: Bytes, k: Worker, r: Reply, inp: Input)
    ensures Resume(Seeming(p, kc), k, r, inp) == Resume(p, k, r, inp)
  {
    assert forall bytes, pick :: PickCa(Seeming(p, kc), bytes, pick) == PickCa(p, bytes, pick);
  }

  lemma OnRecordAfter(p: Params, w: World, w': World, former: string, kc: Bytes)
    requires OnRecord(p, w, former, kc) && Cur(w').obj.Some?
    requires Cur(w').obj.value.spec.planeID == Cur(w).obj.value.spec.planeID
    requires Cur(w').obj.value.status == Cur(w).obj.value.status
    requires former in w'.svc.planes && w'.svc.planes[former].kubeconfig == kc
    ensures OnRecord(p, w', former, kc)
  {
  }

  lemma UpgradeLeavesKubeconfigs(p: Params, w: World, id: string, version: string, inp: Input, former: string)
    requires former in w.svc.planes
    ensures var w' := Serve(p, w, UpdatePlane(id, version), inp).0;
            && w'.log == w.log && former in w'.svc.planes
            && w'.svc.planes[former].kubeconfig == w.svc.planes[former].kubeconfig
  {
  }

  /** A request other than the final write leaves the old plane on record. */
  lemma StaysOnRecord(p: Params, w: World, k: Worker, crt: Bytes, inp: Input, former: string, kc: Bytes)
    requires OnRecord(p, w, former, kc) && Serviceable(Seeming(p, kc), w, crt) && Coherent(Seeming(p, kc), w, k, crt)
    requires inp.lag == 0 && !k.Committing? && !k.CreatingPlane? && !k.PersistingID?
    ensures OnRecord(p, Serve(Seeming(p, kc), w, RequestOf(p, k), inp).0, former, kc)
  {
    var q := Seeming(p, kc);
    var w' := Serve(q, w, RequestOf(q, k), inp).0;
    NoDeletion(q, w, k, crt);
    ServiceableBasics(q, w, crt);
    if Reads(k) {
      ReadsAware(q, w, k, crt, inp);
    } else if ObjectWrite(k) {
      ObjectWritesAware(q, w, k, crt, inp);
      OnRecordAfter(p, w, w', former, kc);
    } else if SecretWrite(k) {
      SecretWritesGoal(q, w, k, crt, inp);
      OnRecordAfter(p, w, w', former, kc);
    } else if k.Upgrading? {
      UpgradeLeavesKubeconfigs(q, w, k.id, k.ncp.spec.version, inp, former);
    }
  }

  lemma FetchesFormer(p: Params, w: World, k: Worker, crt: Bytes, former: string, kc: Bytes)
    requires OnRecord(p, w, former, kc) && Aware(Seeming(p, kc), w, k, crt)
    ensures k.FetchingKubeconfig? || k.FetchingCa? ==>
              KubeconfigReply(p, w.svc, k.ctx.ncp.status.planeID) == KubeconfigIs(kc)
  {
  }

  lemma IsIdentified(p: Params, w: World, k: Worker, crt: Bytes, former: string, kc: Bytes)
    requires OnRecord(p, w, former, kc) && Aware(Seeming(p, kc), w, k, crt) && Placed(k)
    ensures !k.CreatingPlane? && !k.PersistingID?
  {
  }

  ghost predicate MoveInv(p: Params, w: World, k: Worker, crt: Bytes, former: string, kc: Bytes) {
    OnRecord(p, w, former, kc) && Serviceable(Seeming(p, kc), w, crt) && Coherent(Seeming(p, kc), w, k, crt)
  }

  lemma MoveStepSame(p: Params, w: World, k: Worker, crt: Bytes, inp: Input, former: string, kc: Bytes)
    requires MoveInv(p, w, k, crt, former, kc)
    ensures Step(p, w, k, inp) == Step(Seeming(p, kc), w, k, inp)
  {
    FetchesFormer(p, w, k, crt, former, kc);
    SameStep(p, kc, w, k, inp);
  }

  lemma StepOnRecord(p: Params, w: World, k: Worker, crt: Bytes, inp: Input, former: string, kc: Bytes)
    requires MoveInv(p, w, k, crt, former, kc) && inp.lag == 0 && !k.Committing?
    ensures OnRecord(p, Step(Seeming(p, kc), w, k, inp).0, former, kc)
  {
    IsIdentified(p, w, k, crt, former, kc);
    StaysOnRecord(p, w, k, crt, inp, former, kc);
    StepServes(Seeming(p, kc), w, k, inp);
  }

  lemma StepServes(p: Params, w: World, k: Worker, inp: Input)
    ensures var w' := Step(p, w, k, inp).0;
            w' == w || w' == Serve(p, w, RequestOf(p, k), inp).0
  {
  }

  lemma MoveStep(p: Params, w: World, k: Worker, crt: Bytes, inp: Input, former: string, kc: Bytes)
    requires MoveInv(p, w, k, crt, former, kc) && inp.lag == 0 && !k.Committing?
    ensures var (w', k') := Step(Seeming(p, kc), w, k, inp); MoveInv(p, w', k', crt, former, kc)
  {
    StepOnRecord(p, w, k, crt, inp, former, kc);
    StepHeads(Seeming(p, kc), w, k, crt, inp);
  }

  lemma CommitEnds(p: Params, w: World, k: Worker, inp: Input)
    requires k.Committing?
    ensures Stopped(Step(p, w, k, inp).1)
  {
  }

  /** A reconcile of a moving object is one at a service that hands out the old
      kubeconfig to anyone; it leaves the old plane on record or commits. */
  lemma {:induction false} MoveSettles(p: Params, w: World, k: Worker, crt: Bytes, inp: Input, former: string, kc: Bytes)
    requires MoveInv(p, w, k, crt, former, kc) && Smooth(inp)
    ensures Settle(p, w, k, inp) == Settle(Seeming(p, kc), w, k, inp)
    ensures var w' := Settle(p, w, k, inp).0;
            OnRecord(p, w', former, kc) || Converged(Seeming(p, kc), w', crt)
    decreases Rank(k)
  {
    if !Stopped(k) {
      var q := Seeming(p, kc);
      var (w1, k1) := Step(q, w, k, inp);
      MoveStepSame(p, w, k, crt, inp, former, kc);
      if k.Committing? {
        CommitEnds(q, w, k, inp);
        CommitConverges(q, w, k, crt, inp);
      } else {
        MoveStep(p, w, k, crt, inp, former, kc);
        RankDrops(q, w, k, inp);
        MoveSettles(p, w1, k1, crt, inp, former, kc);
      }
    }
  }

  // ---- Reconciles of a moving object ----

  /** Not committed yet. */
  ghost predicate Underway(p: Params, w: World, crt: Bytes, former: string, kc: Bytes, g: Option<Goal>) {
    OnRecord(p, w, former, kc) && Serviceable(Seeming(p, kc), w, crt) && GoalOf(Seeming(p, kc), w, crt) == g
  }

  /** Committed, with the old plane's kubeconfig. */
  ghost predicate Halfway(p: Params, w: World, crt: Bytes, kc: Bytes, g: Option<Goal>) {
    && Serviceable(Seeming(p, kc), w, crt) && Converged(Seeming(p, kc), w, crt)
    && GoalOf(Seeming(p, kc), w, crt) == g
  }

  lemma UnderwaySettles(p: Params, w: World, crt: Bytes, inp: Input, former: string, kc: Bytes, g: Option<Goal>)
    requires Underway(p, w, crt, former, kc, g) && Smooth(inp)
    ensures var w' := Settle(p, w, Reading, inp).0;
            && w' == Settle(Seeming(p, kc), w, Reading, inp).0
            && Heads(Seeming(p, kc), w, w', crt)
            && (Underway(p, w', crt, former, kc, g) || Halfway(p, w', crt, kc, g))
  {
    Restart(Seeming(p, kc), w, crt);
    MoveSettles(p, w, Reading, crt, inp, former, kc);
    SettleHeads(Seeming(p, kc), w, Reading, crt, inp);
  }

  lemma UnderwayAdvances(p: Params, w: World, crt: Bytes, inp: Input, former: string, kc: Bytes, g: Option<Goal>)
    requires Underway(p, w, crt, former, kc, g) && Capable(p, w) && Calm(Seeming(p, kc), g, inp)
    ensures var w' := Settle(p, w, Reading, inp).0;
            && Capable(p, w')
            && ((Underway(p, w', crt, former, kc, g) && Distance(p, w') < Distance(p, w)) || Halfway(p, w', crt, kc, g))
  {
    UnderwaySettles(p, w, crt, inp, former, kc, g);
    ReconcileAdvances(Seeming(p, kc), w, crt, inp);
  }

  lemma UnderwayStuck(p: Params, w: World, crt: Bytes, inp: Input, former: string, kc: Bytes, g: Option<Goal>)
    requires Underway(p, w, crt, former, kc, g) && Drifts(p, w) && !p.errors.updateSupported && Smooth(inp)
    ensures var w' := Settle(p, w, Reading, inp).0;
            Underway(p, w', crt, former, kc, g) && Drifts(p, w')
  {
    UnderwaySettles(p, w, crt, inp, former, kc, g);
    var w' := Settle(p, w, Reading, inp).0;
    if Halfway(p, w', crt, kc, g) {
      ConvergedIsClaimed(Seeming(p, kc), w', crt);
    }
  }

  lemma {:induction false} ReconcilesStuck(p: Params, w: World, crt: Bytes, inps: seq<Input>, former: string, kc: Bytes, g: Option<Goal>)
    requires Underway(p, w, crt, former, kc, g) && Drifts(p, w) && !p.errors.updateSupported
    requires forall i :: 0 <= i < |inps| ==> Smooth(inps[i])
    ensures var w' := Reconciles(p, w, inps);
            Underway(p, w', crt, former, kc, g) && Drifts(p, w')
  {
    if inps != [] {
      ReconcilesStuck(p, w, crt, inps[..|inps| - 1], former, kc, g);
      UnderwayStuck(p, Reconciles(p, w, inps[..|inps| - 1]), crt, inps[|inps| - 1], former, kc, g);
    }
  }

  // ---- The way home ----

  /** What a move ends in: as if there had been no old plane, but for the CA
      certificate, which is the old plane's unless the secret had a key before. */
  function MovedGoal(p: Params, w: World, crt: Bytes, oldCrt: Bytes): Option<Goal> {
    var g := GoalOf(p, w, crt);
    if g.None? then None else Some(g.value.(ca := GoalCaSecret(p, Cur(w), oldCrt)))
  }

  lemma GoalHasPlane(p: Params, w: World, crt: Bytes)
    requires GoalOf(p, w, crt).Some?
    ensures var g := GoalOf(p, w, crt).value;
            g.status.planeID in g.planes && GoalPlane(p, w) == Some(g.planes[g.status.planeID])
  {
  }

  lemma SameGoalSamePlane(p: Params, w: World, w': World, crt: Bytes)
    requires GoalOf(p, w, crt).Some? && GoalOf(p, w', crt) == GoalOf(p, w, crt)
    ensures GoalPlane(p, w') == GoalPlane(p, w)
  {
    GoalHasPlane(p, w, crt);
    GoalHasPlane(p, w', crt);
  }

  lemma SeemingGoal(p: Params, w: World, kc: Bytes, crt: Bytes, oldCrt: Bytes)
    ensures GoalPlane(Seeming(p, kc), w) == GoalPlane(p, w)
    ensures var g, q := GoalOf(p, w, crt), GoalOf(Seeming(p, kc), w, oldCrt);
            && g.Some? == q.Some?
            && (g.Some? ==>
                  && q.value.planes == g.value.planes && q.value.spec == g.value.spec && q.value.status == g.value.status
                  && q.value.ca == GoalCaSecret(p, Cur(w), oldCrt)
                  && q.value.kubeconfig == GoalKubeconfigSecret(p, Cur(w), kc)
                  && g.value.kubeconfig == GoalKubeconfigSecret(p, Cur(w), GoalKubeconfig(p, GoalPlane(p, w).value)))
  {
  }

  /** Where a half-way world is heading. */
  lemma HalfwayGoal(p: Params, w0: World, w: World, crt: Bytes, oldCrt: Bytes, kc: Bytes)
    requires Halfway(p, w, oldCrt, kc, GoalOf(Seeming(p, kc), w0, oldCrt))
    ensures GoalPlane(p, w) == GoalPlane(p, w0)
    ensures GoalOf(p, w, crt) == MovedGoal(p, w0, crt, oldCrt)
  {
    var q := Seeming(p, kc);
    SameGoalSamePlane(q, w0, w, oldCrt);
    SeemingGoal(p, w0, kc, crt, oldCrt);
    SeemingGoal(p, w, kc, crt, oldCrt);
    RefilledTwice(p, Cur(w0), Cur(w), kc, GoalKubeconfig(p, GoalPlane(p, w).value));
  }

  lemma RefilledTwice(p: Params, c: Snapshot, c': Snapshot, kc: Bytes, kc': Bytes)
    requires KubeconfigAt(p, c').Some? && Faced(KubeconfigAt(p, c').value) == GoalKubeconfigSecret(p, c, kc)
    ensures GoalKubeconfigSecret(p, c', kc') == GoalKubeconfigSecret(p, c, kc')
  {
  }

  lemma HalfwayIsServiceable(p: Params, w0: World, w: World, crt: Bytes, oldCrt: Bytes, kc: Bytes)
    requires p.kubeconfigs.ById? && Promising(p, w0, crt)
    requires Halfway(p, w, oldCrt, kc, GoalOf(Seeming(p, kc), w0, oldCrt))
    ensures Serviceable(p, w, crt) && Capable(p, w) && Distance(p, w) == 0
  {
    HalfwayGoal(p, w0, w, crt, oldCrt, kc);
    ServiceableBasics(Seeming(p, kc), w, oldCrt);
    ConvergedFacts(Seeming(p, kc), w, oldCrt);
  }

  /** Heading for where the move ends, like any object at its own plane. */
  ghost predicate Arriving(p: Params, w: World, crt: Bytes, g: Option<Goal>) {
    Serviceable(p, w, crt) && Capable(p, w) && GoalOf(p, w, crt) == g
  }

  lemma HalfwayArrives(p: Params, w0: World, w: World, crt: Bytes, oldCrt: Bytes, kc: Bytes)
    requires p.kubeconfigs.ById? && Promising(p, w0, crt)
    requires Halfway(p, w, oldCrt, kc, GoalOf(Seeming(p, kc), w0, oldCrt))
    ensures Arriving(p, w, crt, MovedGoal(p, w0, crt, oldCrt)) && Distance(p, w) == 0
  {
    HalfwayIsServiceable(p, w0, w, crt, oldCrt, kc);
    HalfwayGoal(p, w0, w, crt, oldCrt, kc);
  }

  lemma ArrivingAdvances(p: Params, w: World, crt: Bytes, g: Option<Goal>, inp: Input)
    requires Arriving(p, w, crt, g) && Calm(p, g, inp)
    ensures var w' := Settle(p, w, Reading, inp).0;
            Arriving(p, w', crt, g) && (Converged(p, w', crt) || Distance(p, w') < Distance(p, w))
  {
    Restart(p, w, crt);
    SettleHeads(p, w, Reading, crt, inp);
    ReconcileAdvances(p, w, crt, inp);
  }

  lemma StaysArrived(p: Params, w: World, crt: Bytes, g: Option<Goal>, inp: Input)
    requires Arriving(p, w, crt, g) && Converged(p, w, crt) && inp.lag == 0
    ensures Settle(p, w, Reading, inp).0 == w
  {
    Restart(p, w, crt);
    ConvergedSettles(p, w, Reading, crt, inp);
  }

  /** How far a move that began in w0 has come, with n reconciles at most to go. */
  ghost predicate Within(p: Params, w0: World, w: World, crt: Bytes, oldCrt: Bytes, former: string, kc: Bytes, n: int) {
    || (Underway(p, w, oldCrt, former, kc, GoalOf(Seeming(p, kc), w0, oldCrt)) && Capable(p, w) && Distance(p, w) + 2 <= n)
    || (Arriving(p, w, crt, MovedGoal(p, w0, crt, oldCrt)) && (Converged(p, w, crt) || Distance(p, w) + 1 <= n))
  }

  lemma OneNearer(p: Params, w0: World, w: World, crt: Bytes, oldCrt: Bytes, former: string, kc: Bytes, n: int, inp: Input)
    requires p.kubeconfigs.ById? && Promising(p, w0, crt) && Within(p, w0, w, crt, oldCrt, former, kc, n)
    requires Calm(p, GoalOf(p, w0, crt), inp) && Calm(Seeming(p, kc), GoalOf(Seeming(p, kc), w0, oldCrt), inp)
    ensures Within(p, w0, Settle(p, w, Reading, inp).0, crt, oldCrt, former, kc, n - 1)
  {
    var g, home := GoalOf(Seeming(p, kc), w0, oldCrt), MovedGoal(p, w0, crt, oldCrt);
    if Arriving(p, w, crt, home) {
      if Converged(p, w, crt) {
        StaysArrived(p, w, crt, home, inp);
      } else {
        ArrivingAdvances(p, w, crt, home, inp);
      }
    } else {
      UnderwayAdvances(p, w, oldCrt, inp, former, kc, g);
      var w' := Settle(p, w, Reading, inp).0;
      if Halfway(p, w', oldCrt, kc, g) {
        HalfwayArrives(p, w0, w', crt, oldCrt, kc);
      }
    }
  }

  /** Calm at the old and at the new plane. */
  ghost predicate CalmTwice(p: Params, w: World, crt: Bytes, oldCrt: Bytes, kc: Bytes, inps: seq<Input>) {
    AllCalm(p, GoalOf(p, w, crt), inps) && AllCalm(Seeming(p, kc), GoalOf(Seeming(p, kc), w, oldCrt), inps)
  }

  lemma CalmBefore(p: Params, w: World, crt: Bytes, oldCrt: Bytes, kc: Bytes, inps: seq<Input>)
    requires CalmTwice(p, w, crt, oldCrt, kc, inps) && inps != []
    ensures CalmTwice(p, w, crt, oldCrt, kc, inps[..|inps| - 1])
    ensures Calm(p, GoalOf(p, w, crt), inps[|inps| - 1])
    ensures Calm(Seeming(p, kc), GoalOf(Seeming(p, kc), w, oldCrt), inps[|inps| - 1])
  {
  }

  lemma {:induction false} MoveApproaches(p: Params, w0: World, w: World, crt: Bytes, oldCrt: Bytes, former: string, kc: Bytes, inps: seq<Input>)
    requires p.kubeconfigs.ById? && Promising(p, w0, crt) && Within(p, w0, w, crt, oldCrt, former, kc, 4)
    requires CalmTwice(p, w0, crt, oldCrt, kc, inps)
    ensures Within(p, w0, Reconciles(p, w, inps), crt, oldCrt, former, kc, 4 - |inps|)
  {
    if inps != [] {
      var before := inps[..|inps| - 1];
      CalmBefore(p, w0, crt, oldCrt, kc, inps);
      MoveApproaches(p, w0, w, crt, oldCrt, former, kc, before);
      OneNearer(p, w0, Reconciles(p, w, before), crt, oldCrt, former, kc, 4 - |before|, inps[|inps| - 1]);
    }
  }

  /** The old kubeconfig, if there is one, is usable. */
  ghost predicate FormerUsable(p: Params, w: World, former: string, oldCrt: Bytes) {
    former in w.svc.planes ==> CarriesCa(p, w.svc.planes[former].kubeconfig, oldCrt)
  }

  ghost predicate CalmMove(p: Params, w: World, crt: Bytes, former: string, oldCrt: Bytes, inps: seq<Input>) {
    && AllCalm(p, GoalOf(p, w, crt), inps)
    && (former in w.svc.planes ==> CalmTwice(p, w, crt, oldCrt, w.svc.planes[former].kubeconfig, inps))
  }

  lemma SeemsServiceable(p: Params, w: World, crt: Bytes, former: string, oldCrt: Bytes)
    requires Promising(p, w, crt) && Moving(p, w, former) && FormerUsable(p, w, former, oldCrt) && former in w.svc.planes
    ensures var kc := w.svc.planes[former].kubeconfig;
            Underway(p, w, oldCrt, former, kc, GoalOf(Seeming(p, kc), w, oldCrt))
  {
  }

  lemma GoneBlocks(p: Params, w: World, crt: Bytes, former: string)
    requires Promising(p, w, crt) && Moving(p, w, former) && former !in w.svc.planes
    ensures Blocked(p, w, Idle, former)
  {
  }

  /** Exactly when a move of spec.planeID off the plane on record settles, at a
      service that goes by the ID: four undisturbed reconciles converge if and
      only if the old plane is still there (and a drifting new plane can be
      upgraded). An object with nothing on record never does: "" is no plane. */
  lemma FourReconcilesMove(p: Params, w: World, crt: Bytes, former: string, oldCrt: Bytes, inps: seq<Input>)
    requires Promising(p, w, crt) && Moving(p, w, former) && FormerUsable(p, w, former, oldCrt)
    requires CalmMove(p, w, crt, former, oldCrt, inps) && |inps| >= 4
    ensures var able := former in w.svc.planes && (Drifts(p, w) ==> p.errors.updateSupported);
            && (Converged(p, Reconciles(p, w, inps), crt) <==> able)
            && (able ==> Shown(p, Reconciles(p, w, inps)) == MovedGoal(p, w, crt, oldCrt))
  {
    var w' := Reconciles(p, w, inps);
    if former !in w.svc.planes {
      GoneBlocks(p, w, crt, former);
      ReconcilesBlocked(p, w, inps, former);
      MovingHasNotConverged(p, w', crt, former);
    } else {
      var kc := w.svc.planes[former].kubeconfig;
      SeemsServiceable(p, w, crt, former, oldCrt);
      if Drifts(p, w) && !p.errors.updateSupported {
        ReconcilesStuck(p, w, oldCrt, inps, former, kc, GoalOf(Seeming(p, kc), w, oldCrt));
        MovingHasNotConverged(p, w', crt, former);
      } else {
        MoveApproaches(p, w, w, crt, oldCrt, former, kc, inps);
      }
    }
  }

  /** On the way there, a move passes through a world that reports the new plane
      as ready, with its endpoint, while the kubeconfig secret is the old one's. */
  lemma {:induction false} PublishesFormer(p: Params, w: World, crt: Bytes, former: string, kc: Bytes, oldCrt: Bytes, inp: Input) returns (n: nat)
    requires Underway(p, w, oldCrt, former, kc, GoalOf(Seeming(p, kc), w, oldCrt)) && Capable(p, w)
    requires Calm(Seeming(p, kc), GoalOf(Seeming(p, kc), w, oldCrt), inp)
    ensures n <= Distance(p, w) + 1
    ensures Shown(p, Reconciles(p, w, seq(n, _ => inp))) == GoalOf(Seeming(p, kc), w, oldCrt)
    decreases Distance(p, w)
  {
    var g := GoalOf(Seeming(p, kc), w, oldCrt);
    var w1 := Settle(p, w, Reading, inp).0;
    UnderwayAdvances(p, w, oldCrt, inp, former, kc, g);
    if Halfway(p, w1, oldCrt, kc, g) {
      n := 1;
      OneReconcile(p, w, inp);
      SameShown(p, w1, kc);
    } else {
      var m := PublishesFormer(p, w1, crt, former, kc, oldCrt, inp);
      n := m + 1;
      FirstReconcile(p, w, inp, m);
    }
  }

  lemma SameShown(p: Params, w: World, kc: Bytes)
    ensures Shown(Seeming(p, kc), w) == Shown(p, w)
  {
  }

  lemma OneReconcile(p: Params, w: World, inp: Input)
    ensures Reconciles(p, w, seq(1, _ => inp)) == Settle(p, w, Reading, inp).0
  {
    var inps := seq(1, _ => inp);
    assert inps[..0] == [] && inps[0] == inp;
  }

  lemma {:induction false} FirstReconcile(p: Params, w: World, inp: Input, m: nat)
    ensures Reconciles(p, w, seq(m + 1, _ => inp)) == Reconciles(p, Settle(p, w, Reading, inp).0, seq(m, _ => inp))
  {
    if m == 0 {
      OneReconcile(p, w, inp);
    } else {
      FirstReconcile(p, w, inp, m - 1);
      assert seq(m + 1, _ => inp)[..m] == seq(m, _ => inp);
      assert seq(m, _ => inp)[..m - 1] == seq(m - 1, _ => inp);
    }
  }

  // ---- Crash refinement of a move ----

  /** A move that began in w0, cut before its first commit. */
  ghost predicate CutBefore(p: Params, w0: World, s: State, oldCrt: Bytes, former: string, kc: Bytes) {
    && MoveInv(p, s.w, s.k, oldCrt, former, kc)
    && GoalOf(Seeming(p, kc), s.w, oldCrt) == GoalOf(Seeming(p, kc), w0, oldCrt)
  }

  /** The same, cut after it. */
  ghost predicate CutAfter(p: Params, w0: World, s: State, crt: Bytes, oldCrt: Bytes) {
    && Serviceable(p, s.w, crt) && Coherent(p, s.w, s.k, crt)
    && GoalOf(p, s.w, crt) == MovedGoal(p, w0, crt, oldCrt)
  }

  /** What faults can make of a move that began in w0. */
  ghost predicate CutMove(p: Params, w0: World, s: State, crt: Bytes, oldCrt: Bytes, former: string, kc: Bytes) {
    && (Drifts(p, s.w) ==> Drifts(p, w0))
    && (CutBefore(p, w0, s, oldCrt, former, kc) || CutAfter(p, w0, s, crt, oldCrt))
  }

  lemma FaultyCommit(p: Params, w0: World, s: State, crt: Bytes, oldCrt: Bytes, inp: Input, former: string, kc: Bytes)
    requires p.kubeconfigs.ById? && Promising(p, w0, crt) && CutBefore(p, w0, s, oldCrt, former, kc) && s.k.Committing?
    requires inp.lag == 0 && inp.outcome != Fails
    ensures var (w', k') := Step(Seeming(p, kc), s.w, s.k, inp); CutAfter(p, w0, State(w', k'), crt, oldCrt)
  {
    var q := Seeming(p, kc);
    StepHeads(q, s.w, s.k, oldCrt, inp);
    CommitEnds(q, s.w, s.k, inp);
    CommitConverges(q, s.w, s.k, oldCrt, inp);
    HalfwayArrives(p, w0, Serve(q, s.w, RequestOf(q, s.k), inp).0, crt, oldCrt, kc);
  }

  lemma FailedCommit(p: Params, w0: World, s: State, oldCrt: Bytes, inp: Input, former: string, kc: Bytes)
    requires CutBefore(p, w0, s, oldCrt, former, kc) && s.k.Committing? && inp.outcome == Fails
    ensures var (w', k') := Step(Seeming(p, kc), s.w, s.k, inp); CutBefore(p, w0, State(w', k'), oldCrt, former, kc)
  {
    FailedStep(Seeming(p, kc), s.w, s.k, inp);
  }

  lemma FailedStep(p: Params, w: World, k: Worker, inp: Input)
    requires inp.outcome == Fails && k.Committing?
    ensures Step(p, w, k, inp) == (w, Done(Failed))
  {
  }

  lemma FaultyRequest(p: Params, w0: World, s: State, oldCrt: Bytes, inp: Input, former: string, kc: Bytes)
    requires CutBefore(p, w0, s, oldCrt, former, kc) && !s.k.Committing? && inp.lag == 0
    ensures var (w', k') := Step(Seeming(p, kc), s.w, s.k, inp); CutBefore(p, w0, State(w', k'), oldCrt, former, kc)
  {
    MoveStep(p, s.w, s.k, oldCrt, inp, former, kc);
    StepHeads(Seeming(p, kc), s.w, s.k, oldCrt, inp);
  }

  lemma FaultyMoveStep(p: Params, w0: World, s: State, crt: Bytes, oldCrt: Bytes, inp: Input, former: string, kc: Bytes)
    requires p.kubeconfigs.ById? && Promising(p, w0, crt) && CutBefore(p, w0, s, oldCrt, former, kc) && inp.lag == 0
    ensures var (w', k') := Step(Seeming(p, kc), s.w, s.k, inp);
            CutBefore(p, w0, State(w', k'), oldCrt, former, kc) || CutAfter(p, w0, State(w', k'), crt, oldCrt)
  {
    if !s.k.Committing? {
      FaultyRequest(p, w0, s, oldCrt, inp, former, kc);
    } else if inp.outcome == Fails {
      FailedCommit(p, w0, s, oldCrt, inp, former, kc);
    } else {
      FaultyCommit(p, w0, s, crt, oldCrt, inp, former, kc);
    }
  }

  lemma StepDrift(p: Params, w: World, k: Worker, crt: Bytes, inp: Input, former: string, kc: Bytes)
    requires MoveInv(p, w, k, crt, former, kc) && inp.lag == 0
    ensures Drifts(p, Step(Seeming(p, kc), w, k, inp).0) ==> Drifts(p, w)
  {
    StepHeads(Seeming(p, kc), w, k, crt, inp);
  }

  lemma CutRequest(p: Params, w0: World, s: State, inp: Input, crt: Bytes, oldCrt: Bytes, former: string, kc: Bytes)
    requires p.kubeconfigs.ById? && Promising(p, w0, crt) && CutBefore(p, w0, s, oldCrt, former, kc) && inp.lag == 0
    requires Drifts(p, s.w) ==> Drifts(p, w0)
    ensures CutMove(p, w0, Apply(p, s, Request(inp)), crt, oldCrt, former, kc)
  {
    MoveStepSame(p, s.w, s.k, oldCrt, inp, former, kc);
    FaultyMoveStep(p, w0, s, crt, oldCrt, inp, former, kc);
    StepDrift(p, s.w, s.k, oldCrt, inp, former, kc);
  }

  lemma CutStep(p: Params, w0: World, s: State, l: Label, crt: Bytes, oldCrt: Bytes, former: string, kc: Bytes)
    requires p.kubeconfigs.ById? && Promising(p, w0, crt) && CutMove(p, w0, s, crt, oldCrt, former, kc)
    requires l.Start? || l.Crash? || (l.Request? && l.inp.lag == 0)
    ensures CutMove(p, w0, Apply(p, s, l), crt, oldCrt, former, kc)
  {
    if CutBefore(p, w0, s, oldCrt, former, kc) {
      if l.Request? {
        CutRequest(p, w0, s, l.inp, crt, oldCrt, former, kc);
      } else {
        Restart(Seeming(p, kc), s.w, oldCrt);
      }
    } else {
      UndisturbedStep(p, s, l, crt);
    }
  }

  lemma {:induction false} FaultsCutMove(p: Params, w0: World, faults: seq<Label>, crt: Bytes, oldCrt: Bytes, former: string, kc: Bytes)
    requires p.kubeconfigs.ById? && Promising(p, w0, crt) && Undisturbed(faults)
    requires Underway(p, w0, oldCrt, former, kc, GoalOf(Seeming(p, kc), w0, oldCrt))
    ensures CutMove(p, w0, Run(p, State(w0, Idle), faults), crt, oldCrt, former, kc)
  {
    if faults == [] {
      Restart(Seeming(p, kc), w0, oldCrt);
    } else {
      var before, l := faults[..|faults| - 1], faults[|faults| - 1];
      assert l in faults;
      FaultsCutMove(p, w0, before, crt, oldCrt, former, kc);
      CutStep(p, w0, Run(p, State(w0, Idle), before), l, crt, oldCrt, former, kc);
    }
  }

  lemma CutIsWithin(p: Params, w0: World, s: State, crt: Bytes, oldCrt: Bytes, former: string, kc: Bytes)
    requires CutMove(p, w0, s, crt, oldCrt, former, kc) && Moving(p, w0, former) && GoalOf(p, w0, crt).Some?
    requires Drifts(p, w0) ==> p.errors.updateSupported
    ensures Within(p, w0, s.w, crt, oldCrt, former, kc, 4)
  {
    assert MovedGoal(p, w0, crt, oldCrt).value.spec.planeID == Cur(w0).obj.value.spec.planeID;
  }

  /** Crash refinement of a move: however its reconciles are cut or disturbed, the
      following four end where it would have ended. */
  lemma MoveCrashRefinement(p: Params, w: World, crt: Bytes, former: string, oldCrt: Bytes, faults: seq<Label>, inps: seq<Input>)
    requires Promising(p, w, crt) && Moving(p, w, former) && FormerUsable(p, w, former, oldCrt) && former in w.svc.planes
    requires (Drifts(p, w) ==> p.errors.updateSupported) && Undisturbed(faults)
    requires CalmMove(p, w, crt, former, oldCrt, inps) && |inps| >= 4
    ensures var w' := Reconciles(p, Run(p, State(w, Idle), faults).w, inps);
            Converged(p, w', crt) && Shown(p, w') == MovedGoal(p, w, crt, oldCrt)
  {
    var kc := w.svc.planes[former].kubeconfig;
    SeemsServiceable(p, w, crt, former, oldCrt);
    FaultsCutMove(p, w, faults, crt, oldCrt, former, kc);
    CutIsWithin(p, w, Run(p, State(w, Idle), faults), crt, oldCrt, former, kc);
    MoveApproaches(p, w, Run(p, State(w, Idle), faults).w, crt, oldCrt, former, kc, inps);
  }
}
