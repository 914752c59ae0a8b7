/** Undisturbed reconciles: bounded convergence, the fixpoint, and crash
    refinement. */
module Settling {
  import opened Domain
  import opened Stores
  import opened Controller
  import opened Runs
  import opened Safety
  import opened Writes
  import opened Greenfield
  import opened Secrets
  import opened Convergence

  /** A reconcile run to its end, every request decided by the same input. */
  function Settle(p: Params, w: World, k: Worker, inp: Input): (World, Worker)
    decreases Rank(k)
  {
    if Stopped(k) then (w, k)
    else
      var (w', k') := Step(p, w, k, inp);
      Settle(p, w', k', inp)
  }

  /** A reconcile whose requests all meet the same input, as the reconciler's
      own method runs it. */
  lemma {:induction false} SettleIsExec(p: Params, w: World, k: Worker, inp: Input, script: nat -> Input, pos: nat)
    requires forall i :: script(i) == inp
    ensures Exec(p, w, k, script, pos) == Settle(p, w, k, inp)
    decreases Rank(k)
  {
    if !Stopped(k) {
      var (w1, k1) := Step(p, w, k, inp);
      RankDrops(p, w, k, inp);
      SettleIsExec(p, w1, k1, inp, script, pos + 1);
    }
  }

  /** Every execution of the reconciler's method is part of a run. */
  lemma {:induction false} ExecIsRun(p: Params, w: World, k: Worker, script: nat -> Input, pos: nat) returns (labels: seq<Label>)
    ensures forall l :: l in labels ==> l.Request? && exists i :: i >= pos && l.inp == script(i)
    ensures Run(p, State(w, k), labels) == State(Exec(p, w, k, script, pos).0, Exec(p, w, k, script, pos).1)
    decreases Rank(k)
  {
    if Stopped(k) {
      labels := [];
    } else {
      var (w1, k1) := Step(p, w, k, script(pos));
      RankDrops(p, w, k, script(pos));
      var rest := ExecIsRun(p, w1, k1, script, pos + 1);
      labels := [Request(script(pos))] + rest;
      RunCons(p, State(w, k), Request(script(pos)), rest);
    }
  }

  /** One reconcile per input, one after the other. */
  function Reconciles(p: Params, w: World, inps: seq<Input>): World {
    if inps == [] then w
    else Settle(p, Reconciles(p, w, inps[..|inps| - 1]), Reading, inps[|inps| - 1]).0
  }

  predicate Smooth(inp: Input) {
    inp.outcome.Success? && inp.lag == 0 && inp.gate.Proceed? && inp.key != []
  }

  /** Nothing fails, reads are fresh, the object is owned and not paused, and
      the entry picked from the kubeconfig exists. */
  ghost predicate Calm(p: Params, g: Option<Goal>, inp: Input) {
    && Smooth(inp)
    && g.Some? && "value" in g.value.kubeconfig.data
    && p.parse(g.value.kubeconfig.data["value"]).Some?
    && inp.pick in p.parse(g.value.kubeconfig.data["value"]).value
  }

  lemma CalmPick(p: Params, w: World, id: string, crt: Bytes, inp: Input)
    requires Basics(p, w, crt) && Target(p, w) == Some(id)
    requires Calm(p, GoalOf(p, w, crt), inp)
    ensures PickCa(p, KcOf(p, w, id), inp.pick) == crt
  {
  }

  // ---- What the client's error mapping has to do with it ----

  /** The plane has been created under the object's name, but the object does
      not know it. */
  predicate Unclaimed(p: Params, w: World) {
    Cur(w).obj.Some? && IdOf(Cur(w).obj.value) == "" && Own(p, w.svc).Some?
  }

  /** The client can do what this world asks for: upgrade a plane that drifts,
      and tell that a name is taken. */
  predicate Capable(p: Params, w: World) {
    && (Drifts(p, w) ==> p.errors.updateSupported)
    && (Unclaimed(p, w) ==> p.errors.conflictTyped)
  }

  /** The same in the middle of a reconcile, which may be about to claim. */
  predicate CapableAt(p: Params, w: World, k: Worker) {
    && (Drifts(p, w) ==> p.errors.updateSupported)
    && (Unclaimed(p, w) ==> p.errors.conflictTyped || k.PersistingID?)
  }

  /** Requests that leave claims alone. */
  lemma ServeClaims(p: Params, w: World, k: Worker, crt: Bytes, inp: Input)
    requires Serviceable(p, w, crt) && Coherent(p, w, k, crt) && inp.lag == 0
    requires !ObjectWrite(k) && !k.CreatingPlane? && !Stopped(k)
    ensures Unclaimed(p, Serve(p, w, RequestOf(p, k), inp).0) ==> Unclaimed(p, w)
  {
    NoDeletion(p, w, k, crt);
    ServiceableBasics(p, w, crt);
    if Reads(k) {
      ReadsAware(p, w, k, crt, inp);
    } else if SecretWrite(k) {
      SecretWritesGoal(p, w, k, crt, inp);
    }
  }

  lemma CreationClaims(p: Params, w: World, k: Worker, inp: Input)
    requires k.CreatingPlane? && inp.outcome.Success? && CapableAt(p, w, k) && Cur(w).obj == Some(k.ncp) && Placed(k)
    ensures var (w', k') := Step(p, w, k, inp);
            Unclaimed(p, w') ==> p.errors.conflictTyped || k'.PersistingID?
  {
  }

  lemma ObjectWritesClaim(p: Params, w: World, k: Worker, crt: Bytes, inp: Input)
    requires Serviceable(p, w, crt) && Coherent(p, w, k, crt) && ObjectWrite(k)
    ensures Unclaimed(p, Serve(p, w, RequestOf(p, k), inp).0) ==> Unclaimed(p, w) && !k.PersistingID?
  {
    ObjectWritesAware(p, w, k, crt, inp);
  }

  lemma StaysCapable(p: Params, w: World, k: Worker, crt: Bytes, inp: Input)
    requires Serviceable(p, w, crt) && Coherent(p, w, k, crt) && !Stopped(k)
    requires CapableAt(p, w, k) && Smooth(inp)
    ensures var (w', k') := Step(p, w, k, inp); CapableAt(p, w', k')
  {
    StepHeads(p, w, k, crt, inp);
    if k.CreatingPlane? {
      CreationClaims(p, w, k, inp);
    } else if ObjectWrite(k) {
      ObjectWritesClaim(p, w, k, crt, inp);
    } else {
      ServeClaims(p, w, k, crt, inp);
    }
  }

  // ---- Progress ----

  lemma EarlyReadsLeadOn(p: Params, w: World, k: Worker, crt: Bytes, inp: Input)
    requires Basics(p, w, crt) && Aware(p, w, k, crt) && Placed(k) && EarlyRead(k) && Smooth(inp)
    ensures !Stopped(Resume(p, k, Serve(p, w, RequestOf(p, k), inp).1, inp))
  {
  }

  lemma LaterReadsLeadOn(p: Params, w: World, k: Worker, crt: Bytes, inp: Input)
    requires Aware(p, w, k, crt) && (KubeconfigRead(k) || CaRead(k)) && Smooth(inp)
    requires Cur(w).obj.Some? && Matched(p, Cur(w).obj.value)
    requires k.FetchingCa? ==> crt != [] && PickCa(p, KcOf(p, w, k.ctx.id), inp.pick) == crt
    ensures !Stopped(Resume(p, k, Serve(p, w, RequestOf(p, k), inp).1, inp))
  {
  }

  lemma CalmReads(p: Params, w: World, k: Worker, crt: Bytes, inp: Input)
    requires Basics(p, w, crt) && Aware(p, w, k, crt) && Placed(k) && Reads(k)
    requires Calm(p, GoalOf(p, w, crt), inp)
    ensures !Stopped(Resume(p, k, Serve(p, w, RequestOf(p, k), inp).1, inp))
  {
    if EarlyRead(k) {
      EarlyReadsLeadOn(p, w, k, crt, inp);
    } else {
      if k.FetchingCa? {
        CalmPick(p, w, k.ctx.id, crt, inp);
      }
      LaterReadsLeadOn(p, w, k, crt, inp);
    }
  }

  lemma CommitConverges(p: Params, w: World, k: Worker, crt: Bytes, inp: Input)
    requires Serviceable(p, w, crt) && Coherent(p, w, k, crt) && k.Committing?
    ensures Converged(p, Serve(p, w, RequestOf(p, k), inp).0, crt)
  {
    var w' := Serve(p, w, RequestOf(p, k), inp).0;
    ObjectWritesAware(p, w, k, crt, inp);
    ServiceableBasics(p, w, crt);
    var id := k.ctx.id;
    var h := w.svc.planes[id];
    assert h.(plane := h.plane.(version := k.ctx.ncp.spec.version)) == h;
    assert w.svc.planes[id := h] == w.svc.planes;
  }

  /** A calm request leads on, or brings the world strictly nearer, or home. */
  lemma CalmServe(p: Params, w: World, k: Worker, crt: Bytes, inp: Input)
    requires Serviceable(p, w, crt) && Coherent(p, w, k, crt) && !Stopped(k)
    requires CapableAt(p, w, k) && Calm(p, GoalOf(p, w, crt), inp)
    ensures var (w', r) := Serve(p, w, RequestOf(p, k), inp);
            || !Stopped(Resume(p, k, r, inp)) || Distance(p, w') < Distance(p, w)
            || (k.Committing? && Converged(p, w', crt))
  {
    NoDeletion(p, w, k, crt);
    if Reads(k) {
      ServiceableBasics(p, w, crt);
      CalmReads(p, w, k, crt, inp);
    } else if k.Committing? {
      CommitConverges(p, w, k, crt, inp);
    } else if ObjectWrite(k) {
      CalmObjectWrites(p, w, k, crt, inp);
    } else if SecretWrite(k) {
      CalmSecretWrites(p, w, k, crt, inp);
    } else {
      CalmPlaneWrites(p, w, k, crt, inp);
    }
  }

  lemma CalmStep(p: Params, w: World, k: Worker, crt: Bytes, inp: Input)
    requires Serviceable(p, w, crt) && Coherent(p, w, k, crt) && !Stopped(k)
    requires CapableAt(p, w, k) && Calm(p, GoalOf(p, w, crt), inp)
    ensures var (w', k') := Step(p, w, k, inp);
            || !Stopped(k') || Distance(p, w') < Distance(p, w)
            || (k.Committing? && Converged(p, w', crt))
  {
    CalmServe(p, w, k, crt, inp);
  }

  lemma CalmSecretWrites(p: Params, w: World, k: Worker, crt: Bytes, inp: Input)
    requires Aware(p, w, k, crt) && SecretWrite(k)
    ensures !Stopped(Resume(p, k, Serve(p, w, RequestOf(p, k), inp).1, inp))
  {
    SecretWritesAware(p, w, k, crt, inp);
  }

  lemma CalmObjectWrites(p: Params, w: World, k: Worker, crt: Bytes, inp: Input)
    requires Serviceable(p, w, crt) && Coherent(p, w, k, crt) && ObjectWrite(k) && !k.Committing?
    ensures var (w', r) := Serve(p, w, RequestOf(p, k), inp);
            !Stopped(Resume(p, k, r, inp)) || Distance(p, w') < Distance(p, w)
  {
    var w' := Serve(p, w, RequestOf(p, k), inp).0;
    ObjectWritesAware(p, w, k, crt, inp);
    SameGoal(p, w, w', crt);
  }

  lemma CalmCreation(p: Params, w: World, k: Worker, inp: Input)
    requires k.CreatingPlane?
    requires if p.name in w.svc.names then p.errors.conflictTyped else w.svc.next.Some?
    ensures !Stopped(Resume(p, k, Serve(p, w, RequestOf(p, k), inp).1, inp))
  {
  }

  lemma CalmPlaneWrites(p: Params, w: World, k: Worker, crt: Bytes, inp: Input)
    requires Serviceable(p, w, crt) && Coherent(p, w, k, crt) && (k.CreatingPlane? || k.Upgrading?)
    requires CapableAt(p, w, k)
    ensures var (w', r) := Serve(p, w, RequestOf(p, k), inp);
            !Stopped(Resume(p, k, r, inp)) || Distance(p, w') < Distance(p, w)
  {
    if k.CreatingPlane? {
      CalmCreation(p, w, k, inp);
    } else {
      UpgradeGoal(p, w, k.ncp, k.id, crt, inp);
    }
  }

  lemma {:induction false} SettleHeads(p: Params, w: World, k: Worker, crt: Bytes, inp: Input)
    requires Serviceable(p, w, crt) && Coherent(p, w, k, crt) && inp.lag == 0
    ensures Heads(p, w, Settle(p, w, k, inp).0, crt)
    decreases Rank(k)
  {
    if !Stopped(k) {
      var (w1, k1) := Step(p, w, k, inp);
      StepHeads(p, w, k, crt, inp);
      RankDrops(p, w, k, inp);
      SettleHeads(p, w1, k1, crt, inp);
    }
  }

  lemma {:induction false} SettleAdvances(p: Params, w: World, k: Worker, crt: Bytes, inp: Input)
    requires Serviceable(p, w, crt) && Coherent(p, w, k, crt) && !Stopped(k)
    requires CapableAt(p, w, k) && Calm(p, GoalOf(p, w, crt), inp)
    ensures var w' := Settle(p, w, k, inp).0;
            && Capable(p, w')
            && (Distance(p, w') < Distance(p, w) || Converged(p, w', crt))
    decreases Rank(k)
  {
    var (w1, k1) := Step(p, w, k, inp);
    StepHeads(p, w, k, crt, inp);
    CalmStep(p, w, k, crt, inp);
    StaysCapable(p, w, k, crt, inp);
    if !Stopped(k1) {
      RankDrops(p, w, k, inp);
      SettleAdvances(p, w1, k1, crt, inp);
    }
  }

  lemma Restart(p: Params, w: World, crt: Bytes)
    requires Serviceable(p, w, crt)
    ensures Coherent(p, w, Reading, crt) && Coherent(p, w, Idle, crt)
  {
  }

  lemma ReconcileAdvances(p: Params, w: World, crt: Bytes, inp: Input)
    requires Serviceable(p, w, crt) && Capable(p, w) && Calm(p, GoalOf(p, w, crt), inp)
    ensures var w' := Settle(p, w, Reading, inp).0;
            && Capable(p, w')
            && (Distance(p, w') < Distance(p, w) || Converged(p, w', crt))
  {
    Restart(p, w, crt);
    SettleAdvances(p, w, Reading, crt, inp);
  }

  // ---- The fixpoint ----

  /** In a converged world no location that would change something is reached. */
  lemma ConvergedRests(p: Params, w: World, k: Worker, crt: Bytes)
    requires Serviceable(p, w, crt) && Converged(p, w, crt) && Coherent(p, w, k, crt)
    ensures Stopped(k) || Reads(k) || k.UpdatingKubeconfigSecret? || k.Committing?
  {
    NoDeletion(p, w, k, crt);
    ServiceableBasics(p, w, crt);
    ConvergedFacts(p, w, crt);
  }

  lemma ConvergedFacts(p: Params, w: World, crt: Bytes)
    requires Basics(p, w, crt) && Converged(p, w, crt) && ServiceOK(w.svc)
    ensures !Drifts(p, w) && HasFinalizer(Cur(w)) && KubeconfigAt(p, Cur(w)).Some?
    ensures Target(p, w) == Some(Cur(w).obj.value.status.planeID)
    ensures var id := Cur(w).obj.value.status.planeID;
            && id != "" && id in w.svc.planes
            && w.svc.planes[id].plane.version == Cur(w).obj.value.spec.version
            && Cur(w).obj.value.spec.endpoint == Desired(w.svc.planes[id].plane)
            && Cur(w).obj.value.status == Status(true, true, id, Cur(w).obj.value.spec.version)
            && Faced(KubeconfigAt(p, Cur(w)).value) == GoalKubeconfigSecret(p, Cur(w), KcOf(p, w, id))
  {
    var g := GoalOf(p, w, crt).value;
    var id := g.status.planeID;
    assert id in g.planes && g.planes[id] == GoalPlane(p, w).value;
    assert Target(p, w).Some?;
  }

  lemma ConvergedStep(p: Params, w: World, k: Worker, crt: Bytes, inp: Input)
    requires Serviceable(p, w, crt) && Converged(p, w, crt) && Coherent(p, w, k, crt) && inp.lag == 0
    ensures Serve(p, w, RequestOf(p, k), inp).0 == w
  {
    ConvergedRests(p, w, k, crt);
    ServiceableBasics(p, w, crt);
    ConvergedFacts(p, w, crt);
    if Reads(k) {
      ReadsAware(p, w, k, crt, inp);
    } else if k.UpdatingKubeconfigSecret? {
      RefillIsIdle(p, k.prior, k.kc);
    }
  }

  /** Whatever becomes of a request made in a converged world, the world stays
      as it is. */
  lemma ConvergedMoves(p: Params, w: World, k: Worker, crt: Bytes, inp: Input)
    requires Serviceable(p, w, crt) && Converged(p, w, crt) && Coherent(p, w, k, crt) && inp.lag == 0
    ensures var (w', k') := Step(p, w, k, inp);
            w' == w && Coherent(p, w, k', crt)
  {
    ConvergedStep(p, w, k, crt, inp);
    StepHeads(p, w, k, crt, inp);
  }

  lemma RefillIsIdle(p: Params, s: Secret, kc: Bytes)
    requires Faced(s) == Faced(Refilled(s, KubeconfigSecret(p, kc)))
    ensures Refilled(s, KubeconfigSecret(p, kc)) == s
  {
  }

  // ---- Runs without a disturbing environment ----

  /** Reconciles start, make requests of any outcome with fresh reads, and crash
      anywhere; nobody else does anything. */
  ghost predicate Undisturbed(labels: seq<Label>) {
    forall l :: l in labels ==> l.Start? || l.Crash? || (l.Request? && l.inp.lag == 0)
  }

  lemma UndisturbedStep(p: Params, s: State, l: Label, crt: Bytes)
    requires Serviceable(p, s.w, crt) && Coherent(p, s.w, s.k, crt)
    requires l.Start? || l.Crash? || (l.Request? && l.inp.lag == 0)
    ensures var s' := Apply(p, s, l);
            Heads(p, s.w, s'.w, crt) && Coherent(p, s'.w, s'.k, crt)
  {
    if l.Request? {
      StepHeads(p, s.w, s.k, crt, l.inp);
    } else {
      Restart(p, s.w, crt);
    }
  }

  lemma {:induction false} UndisturbedHeads(p: Params, s: State, labels: seq<Label>, crt: Bytes)
    requires Serviceable(p, s.w, crt) && Coherent(p, s.w, s.k, crt) && Undisturbed(labels)
    ensures var t := Run(p, s, labels);
            Heads(p, s.w, t.w, crt) && Coherent(p, t.w, t.k, crt)
  {
    if labels != [] {
      var before, l := labels[..|labels| - 1], labels[|labels| - 1];
      assert l in labels;
      UndisturbedHeads(p, s, before, crt);
      UndisturbedStep(p, Run(p, s, before), l, crt);
    }
  }

  /** Fixpoint: once converged, no sequence of reconciles, whole, faulty or cut,
      changes anything in either store, and no creation, upgrade or deletion of
      a plane reaches the service. */
  lemma {:induction false} Fixpoint(p: Params, s: State, labels: seq<Label>, crt: Bytes)
    requires Serviceable(p, s.w, crt) && Coherent(p, s.w, s.k, crt)
    requires Converged(p, s.w, crt) && Undisturbed(labels)
    ensures Run(p, s, labels).w == s.w
  {
    if labels != [] {
      var before, l := labels[..|labels| - 1], labels[|labels| - 1];
      assert l in labels;
      var t := Run(p, s, before);
      Fixpoint(p, s, before, crt);
      UndisturbedHeads(p, s, before, crt);
      if l.Request? {
        ConvergedMoves(p, t.w, t.k, crt, l.inp);
      }
    }
  }

  // ---- Bounded convergence ----

  ghost predicate AllCalm(p: Params, g: Option<Goal>, inps: seq<Input>) {
    forall i :: 0 <= i < |inps| ==> Calm(p, g, inps[i])
  }

  lemma {:induction false} ConvergedSettles(p: Params, w: World, k: Worker, crt: Bytes, inp: Input)
    requires Serviceable(p, w, crt) && Converged(p, w, crt) && Coherent(p, w, k, crt) && inp.lag == 0
    ensures Settle(p, w, k, inp).0 == w
    decreases Rank(k)
  {
    if !Stopped(k) {
      ConvergedMoves(p, w, k, crt, inp);
      RankDrops(p, w, k, inp);
      ConvergedSettles(p, w, Step(p, w, k, inp).1, crt, inp);
    }
  }

  lemma RankDrops(p: Params, w: World, k: Worker, inp: Input)
    requires !Stopped(k)
    ensures Rank(Step(p, w, k, inp).1) < Rank(k)
  {
    ResumeEnds(p, k, Serve(p, w, RequestOf(p, k), inp).1, inp);
    ResumeEnds(p, k, Unavailable, inp);
  }

  lemma {:induction false} ReconcilesHead(p: Params, w: World, crt: Bytes, inps: seq<Input>)
    requires Serviceable(p, w, crt) && forall i :: 0 <= i < |inps| ==> inps[i].lag == 0
    ensures Heads(p, w, Reconciles(p, w, inps), crt)
  {
    if inps != [] {
      var before := inps[..|inps| - 1];
      ReconcilesHead(p, w, crt, before);
      Restart(p, Reconciles(p, w, before), crt);
      SettleHeads(p, Reconciles(p, w, before), Reading, crt, inps[|inps| - 1]);
    }
  }

  lemma {:induction false} Approaches(p: Params, w: World, crt: Bytes, inps: seq<Input>)
    requires Serviceable(p, w, crt) && Capable(p, w) && AllCalm(p, GoalOf(p, w, crt), inps)
    ensures var w' := Reconciles(p, w, inps);
            && Capable(p, w')
            && (Converged(p, w', crt) || Distance(p, w') + |inps| <= Distance(p, w))
  {
    if inps != [] {
      var before, inp := inps[..|inps| - 1], inps[|inps| - 1];
      Approaches(p, w, crt, before);
      ReconcilesHead(p, w, crt, before);
      var t := Reconciles(p, w, before);
      if Converged(p, t, crt) {
        Restart(p, t, crt);
        ConvergedSettles(p, t, Reading, crt, inp);
      } else {
        ReconcileAdvances(p, t, crt, inp);
      }
    }
  }

  // ---- No progress ----

  predicate ClaimsNothing(k: Worker) {
    !k.LookingUp? && !k.PersistingID? && !Resolved(k)
  }

  /** Without a typed 409 an unclaimed plane stays unclaimed. */
  lemma ServeUnclaimed(p: Params, w: World, k: Worker, crt: Bytes, inp: Input)
    requires Serviceable(p, w, crt) && Coherent(p, w, k, crt) && inp.lag == 0
    requires Unclaimed(p, w) && ClaimsNothing(k)
    ensures Unclaimed(p, Serve(p, w, RequestOf(p, k), inp).0)
  {
    NoDeletion(p, w, k, crt);
    if k.AddingFinalizer? {
      ObjectWritesAware(p, w, k, crt, inp);
    }
  }

  lemma ResumeUnclaimed(p: Params, w: World, k: Worker, crt: Bytes, inp: Input)
    requires Aware(p, w, k, crt) && Unclaimed(p, w) && !p.errors.conflictTyped && ClaimsNothing(k)
    ensures ClaimsNothing(Resume(p, k, Serve(p, w, RequestOf(p, k), inp).1, inp))
    ensures ClaimsNothing(Resume(p, k, Unavailable, inp))
  {
  }

  lemma StaysUnclaimed(p: Params, w: World, k: Worker, crt: Bytes, inp: Input)
    requires Serviceable(p, w, crt) && Coherent(p, w, k, crt) && inp.lag == 0
    requires Unclaimed(p, w) && !p.errors.conflictTyped && ClaimsNothing(k)
    ensures var (w', k') := Step(p, w, k, inp); Unclaimed(p, w') && ClaimsNothing(k')
  {
    ServeUnclaimed(p, w, k, crt, inp);
    ResumeUnclaimed(p, w, k, crt, inp);
  }

  lemma {:induction false} SettleUnclaimed(p: Params, w: World, k: Worker, crt: Bytes, inp: Input)
    requires Serviceable(p, w, crt) && Coherent(p, w, k, crt) && inp.lag == 0
    requires Unclaimed(p, w) && !p.errors.conflictTyped && ClaimsNothing(k)
    ensures Unclaimed(p, Settle(p, w, k, inp).0)
    decreases Rank(k)
  {
    if !Stopped(k) {
      var (w1, k1) := Step(p, w, k, inp);
      StepHeads(p, w, k, crt, inp);
      StaysUnclaimed(p, w, k, crt, inp);
      RankDrops(p, w, k, inp);
      SettleUnclaimed(p, w1, k1, crt, inp);
    }
  }

  lemma ReconcileUnclaimed(p: Params, w: World, crt: Bytes, inp: Input)
    requires Serviceable(p, w, crt) && inp.lag == 0 && Unclaimed(p, w) && !p.errors.conflictTyped
    ensures Unclaimed(p, Settle(p, w, Reading, inp).0)
  {
    Restart(p, w, crt);
    SettleUnclaimed(p, w, Reading, crt, inp);
  }

  lemma {:induction false} ReconcilesUnclaimed(p: Params, w: World, crt: Bytes, inps: seq<Input>)
    requires Serviceable(p, w, crt) && forall i :: 0 <= i < |inps| ==> inps[i].lag == 0
    requires Unclaimed(p, w) && !p.errors.conflictTyped
    ensures Unclaimed(p, Reconciles(p, w, inps))
  {
    if inps != [] {
      var before := inps[..|inps| - 1];
      ReconcilesUnclaimed(p, w, crt, before);
      ReconcilesHead(p, w, crt, before);
      ReconcileUnclaimed(p, Reconciles(p, w, before), crt, inps[|inps| - 1]);
    }
  }

  lemma ConvergedIsClaimed(p: Params, w: World, crt: Bytes)
    requires Serviceable(p, w, crt) && Converged(p, w, crt)
    ensures !Drifts(p, w) && !Unclaimed(p, w)
  {
    ServiceableBasics(p, w, crt);
    ConvergedFacts(p, w, crt);
  }

  /** Bounded convergence: three undisturbed reconciles suffice, and more do no
      harm, exactly when the client can do what the world asks for; what is
      reached is the goal of the world they started from. */
  lemma ThreeReconcilesConverge(p: Params, w: World, crt: Bytes, inps: seq<Input>)
    requires Serviceable(p, w, crt) && AllCalm(p, GoalOf(p, w, crt), inps) && |inps| >= 3
    ensures Converged(p, Reconciles(p, w, inps), crt) <==> Capable(p, w)
    ensures Capable(p, w) ==> Shown(p, Reconciles(p, w, inps)) == GoalOf(p, w, crt)
  {
    var w' := Reconciles(p, w, inps);
    ReconcilesHead(p, w, crt, inps);
    if Capable(p, w) {
      Approaches(p, w, crt, inps);
    } else {
      if Unclaimed(p, w) && !p.errors.conflictTyped {
        ReconcilesUnclaimed(p, w, crt, inps);
      }
      if Converged(p, w', crt) {
        ConvergedIsClaimed(p, w', crt);
      }
    }
  }

  /** The same from any state any run reaches, however faulty and stale it was and
      whatever users did to spec.planeID: as long as nobody asked for deletion,
      the plane the object stands for is ready, and the kubeconfig is fetched for
      that plane. */
  lemma ReachableStatesConverge(p: Params, s: State, labels: seq<Label>, crt: Bytes, inps: seq<Input>)
    requires Init(s)
    requires var w := Run(p, s, labels).w;
             && Cur(w).obj.Some? && !Cur(w).obj.value.deleting && Cur(w).obj.value.spec.version != ""
             && Matched(p, Cur(w).obj.value)
             && GoalPlane(p, w).Some? && GoalPlane(p, w).value.plane.status == READY
             && CarriesCa(p, GoalKubeconfig(p, GoalPlane(p, w).value), crt)
             && AllCalm(p, GoalOf(p, w, crt), inps) && |inps| >= 3
    ensures var w := Run(p, s, labels).w;
            && (Converged(p, Reconciles(p, w, inps), crt) <==> Capable(p, w))
            && (p.errors == FAKE_ERRORS ==> Capable(p, w))
            && (Capable(p, w) ==> Shown(p, Reconciles(p, w, inps)) == GoalOf(p, w, crt))
  {
    var t := Run(p, s, labels);
    InitInv(s);
    RunKeepsInv(p, s, labels);
    assert Inv(State(t.w, Idle));
    ThreeReconcilesConverge(p, t.w, crt, inps);
  }

  // ---- Crash refinement ----

  /** The reconciles inps' of the cut world converge exactly when the client can
      claim what the cut left unclaimed, and then show what inps show of w. */
  ghost predicate SameOutcome(p: Params, w: World, inps: seq<Input>, cut: World, inps': seq<Input>, crt: Bytes) {
    var able := Unclaimed(p, cut) ==> p.errors.conflictTyped;
    && Shown(p, Reconciles(p, w, inps)).Some?
    && (Converged(p, Reconciles(p, cut, inps'), crt) <==> able)
    && (able ==> Shown(p, Reconciles(p, cut, inps')) == Shown(p, Reconciles(p, w, inps)))
  }

  lemma SameDestination(p: Params, w: World, inps: seq<Input>, cut: World, inps': seq<Input>, crt: Bytes)
    requires Serviceable(p, w, crt) && Capable(p, w) && Heads(p, w, cut, crt)
    requires AllCalm(p, GoalOf(p, w, crt), inps) && |inps| >= 3
    requires AllCalm(p, GoalOf(p, w, crt), inps') && |inps'| >= 3
    ensures SameOutcome(p, w, inps, cut, inps', crt)
  {
    ThreeReconcilesConverge(p, w, crt, inps);
    ThreeReconcilesConverge(p, cut, crt, inps');
  }

  /** Crash refinement: however many reconciles are cut or disturbed by faults,
      and wherever (also between deleting and recreating the CA secret), the
      reconciles that follow end in the same planes, spec, status, kubeconfig
      secret and CA certificate as if nothing had gone wrong; unless a fault has
      left a plane unclaimed and the client does not tell that its name is taken. */
  lemma CrashRefinement(p: Params, w: World, crt: Bytes, faults: seq<Label>, inps: seq<Input>, inps': seq<Input>)
    requires Serviceable(p, w, crt) && Capable(p, w) && Undisturbed(faults)
    requires AllCalm(p, GoalOf(p, w, crt), inps) && |inps| >= 3
    requires AllCalm(p, GoalOf(p, w, crt), inps') && |inps'| >= 3
    ensures SameOutcome(p, w, inps, Run(p, State(w, Idle), faults).w, inps', crt)
  {
    FaultsKeepGoal(p, w, crt, faults);
    SameDestination(p, w, inps, Run(p, State(w, Idle), faults).w, inps', crt);
  }

  lemma FaultsKeepGoal(p: Params, w: World, crt: Bytes, faults: seq<Label>)
    requires Serviceable(p, w, crt) && Undisturbed(faults)
    ensures Heads(p, w, Run(p, State(w, Idle), faults).w, crt)
  {
    Restart(p, w, crt);
    UndisturbedHeads(p, State(w, Idle), faults, crt);
  }
}
