/** Adoption through spec.planeID. The kubeconfig is fetched for status.planeID,
    which only the final write sets; a service that looks at the ID therefore
    never lets an adoption finish. */
module Brownfield {
  import opened Domain
  import opened Stores
  import opened Controller
  import opened Runs
  import opened Safety
  import opened Writes
  import opened Greenfield
  import opened Convergence
  import opened Settling
  import opened Stranding

  /** The object is created with spec.planeID, and every edit keeps it set. */
  ghost predicate AdoptingRun(labels: seq<Label>) {
    forall l :: l in labels && SetsSpec(l) ==> l.spec.planeID != ""
  }

  ghost predicate AdoptStart(s: State) {
    Cur(s.w).obj.Some? ==> Cur(s.w).obj.value.spec.planeID != ""
  }

  ghost predicate Adopting(log: Log) {
    forall i :: 0 <= i < |log| && log[i].obj.Some? ==> log[i].obj.value.spec.planeID != ""
  }

  /** The locations an adoption with nothing on record can be at. */
  predicate BeforeKubeconfig(k: Worker) {
    || Stopped(k) || k.Reading? || k.CheckingOwner? || k.AddingFinalizer? || k.Authenticating?
    || k.GettingPlane? || k.Upgrading? || k.WritingEndpoint? || k.FetchingKubeconfig? || k.RemovingFinalizer?
  }

  ghost predicate AdoptInv(s: State) {
    Inv(s) && Adopting(s.w.log) && NothingReported(s.w.log) && BeforeKubeconfig(s.k)
  }

  lemma AdoptingCopy(s: State)
    requires AdoptInv(s) && Copy(s.k).Some?
    ensures Copy(s.k).value.status == EMPTY_STATUS && Copy(s.k).value.spec.planeID != ""
  {
    var i :| 0 <= i < |s.w.log| && s.w.log[i].obj == Copy(s.k);
  }

  lemma ResumeAdopting(p: Params, k: Worker, r: Reply, inp: Input)
    requires BeforeKubeconfig(k)
    requires Copy(k).Some? ==> Copy(k).value.status == EMPTY_STATUS && Copy(k).value.spec.planeID != ""
    requires k.FetchingKubeconfig? ==> !r.KubeconfigIs?
    ensures BeforeKubeconfig(Resume(p, k, r, inp))
  {
  }

  lemma ServeAdopting(p: Params, w: World, k: Worker, inp: Input)
    requires AdoptInv(State(w, k))
    ensures var w' := Serve(p, w, RequestOf(p, k), inp).0;
            Adopting(w'.log) && NothingReported(w'.log)
  {
    if Copy(k).Some? {
      AdoptingCopy(State(w, k));
    }
    if Accepted(p, w, k) {
      WriteIsExact(p, w, k, inp);
    }
  }

  /** The first fetch of an adoption asks for the kubeconfig of the plane "". It
      is answered exactly by a service that does not look at the ID. */
  lemma AdoptionFetch(p: Params, s: State, inp: Input)
    requires AdoptInv(s) && s.k.FetchingKubeconfig?
    ensures RequestOf(p, s.k) == GetKubeconfig("")
    ensures Serve(p, s.w, RequestOf(p, s.k), inp).1.KubeconfigIs? <==> p.kubeconfigs.Anyone?
  {
    AdoptingCopy(s);
  }

  lemma RequestKeepsAdopting(p: Params, s: State, inp: Input)
    requires AdoptInv(s) && p.kubeconfigs.ById?
    ensures AdoptInv(Apply(p, s, Request(inp)))
  {
    StepKeepsInv(p, s, inp);
    ServeAdopting(p, s.w, s.k, inp);
    if Copy(s.k).Some? {
      AdoptingCopy(s);
    }
    if s.k.FetchingKubeconfig? {
      AdoptionFetch(p, s, inp);
    }
    ResumeAdopting(p, s.k, Serve(p, s.w, RequestOf(p, s.k), inp).1, inp);
    ResumeAdopting(p, s.k, Unavailable, inp);
  }

  lemma UserKeepsAdopting(p: Params, s: State, l: Label)
    requires AdoptInv(s) && ByUser(l) && (l.Edit? ==> l.spec.planeID != "")
    ensures Adopting(Apply(p, s, l).w.log) && Apply(p, s, l).k == s.k
  {
    UserStep(p, s, l);
    assert s.w.log[|s.w.log| - 1] == Cur(s.w);
  }

  lemma SameObjectAdopting(a: Log, b: Log)
    requires Adopting(a) && a <= b
    requires forall i :: |a| <= i < |b| ==> b[i].obj == a[|a| - 1].obj
    ensures Adopting(b)
  {
    forall i | 0 <= i < |b| && b[i].obj.Some? ensures b[i].obj.value.spec.planeID != "" {
      assert if i < |a| then b[i] == a[i] else b[i].obj == a[|a| - 1].obj;
    }
  }

  lemma QuietKeepsAdopting(p: Params, s: State, s': State)
    requires AdoptInv(s) && Quiet(p, s, s')
    ensures Adopting(s'.w.log) && NothingReported(s'.w.log)
  {
    SameObjectAdopting(s.w.log, s'.w.log);
    SameObjectReported(s.w.log, s'.w.log);
  }

  lemma OthersKeepAdopting(p: Params, s: State, l: Label)
    requires AdoptInv(s) && !l.Request? && (SetsSpec(l) ==> l.spec.planeID != "")
    ensures AdoptInv(Apply(p, s, l))
  {
    ApplyKeepsInv(p, s, l);
    if ByUser(l) {
      UserKeepsAdopting(p, s, l);
      UserKeepsReport(p, s, l);
    } else if l.CreateObject? {
      CreationReportsNothing(p, s, l);
    } else {
      OthersQuiet(p, s, l);
      QuietKeepsAdopting(p, s, Apply(p, s, l));
    }
  }

  lemma {:induction false} RunKeepsAdopting(p: Params, s: State, labels: seq<Label>)
    requires AdoptInv(s) && p.kubeconfigs.ById? && AdoptingRun(labels)
    ensures AdoptInv(Run(p, s, labels))
  {
    if labels != [] {
      var before, l := labels[..|labels| - 1], labels[|labels| - 1];
      assert l in labels;
      RunKeepsAdopting(p, s, before);
      var t := Run(p, s, before);
      if l.Request? {
        RequestKeepsAdopting(p, t, l.inp);
      } else {
        OthersKeepAdopting(p, t, l);
      }
    }
  }

  /** Nothing reported, and no secret about to be written. */
  predicate NothingAchieved(p: Params, s: State) {
    && (Cur(s.w).obj.Some? ==> Cur(s.w).obj.value.status == EMPTY_STATUS)
    && !RequestOf(p, s.k).CreateSecret? && !RequestOf(p, s.k).PutSecret?
  }

  lemma AdoptingAchievesNothing(p: Params, s: State)
    requires AdoptInv(s)
    ensures NothingAchieved(p, s)
  {
    assert Cur(s.w) == s.w.log[|s.w.log| - 1];
  }

  /** With a service that answers kubeconfigs by plane ID, an object created
      with spec.planeID reports nothing in any run that keeps the field set:
      its status stays empty and its reconciles never write a secret. */
  lemma AdoptionNeverFinishes(p: Params, s: State, labels: seq<Label>)
    requires Init(s) && AdoptStart(s)
    requires p.kubeconfigs.ById? && AdoptingRun(labels)
    ensures NothingAchieved(p, Run(p, s, labels))
  {
    InitInv(s);
    RunKeepsAdopting(p, s, labels);
    AdoptingAchievesNothing(p, Run(p, s, labels));
  }

  // ---- When an adoption finishes ----

  lemma {:induction false} SettleKeepsAdopting(p: Params, w: World, k: Worker, inp: Input)
    requires AdoptInv(State(w, k)) && p.kubeconfigs.ById?
    ensures AdoptInv(State(Settle(p, w, k, inp).0, Idle))
    decreases Rank(k)
  {
    if !Stopped(k) {
      var (w1, k1) := Step(p, w, k, inp);
      RequestKeepsAdopting(p, State(w, k), inp);
      RankDrops(p, w, k, inp);
      SettleKeepsAdopting(p, w1, k1, inp);
    }
  }

  lemma {:induction false} ReconcilesKeepAdopting(p: Params, w: World, inps: seq<Input>)
    requires AdoptInv(State(w, Idle)) && p.kubeconfigs.ById?
    ensures AdoptInv(State(Reconciles(p, w, inps), Idle))
  {
    if inps != [] {
      ReconcilesKeepAdopting(p, w, inps[..|inps| - 1]);
      SettleKeepsAdopting(p, Reconciles(p, w, inps[..|inps| - 1]), Reading, inps[|inps| - 1]);
    }
  }

  lemma AdoptingHasNotConverged(p: Params, w: World, crt: Bytes)
    requires AdoptInv(State(w, Idle))
    ensures !Converged(p, w, crt)
  {
    AdoptingAchievesNothing(p, State(w, Idle));
  }

  /** From any promising world of an adoption, three undisturbed reconciles
      converge exactly when the service does not look at the ID it is asked for
      (and the client can upgrade the plane, should it drift). */
  lemma AdoptionSettles(p: Params, w: World, crt: Bytes, inps: seq<Input>)
    requires Promising(p, w, crt) && Cur(w).obj.value.spec.planeID != ""
    requires p.kubeconfigs.ById? ==> AdoptInv(State(w, Idle))
    requires AllCalm(p, GoalOf(p, w, crt), inps) && |inps| >= 3
    ensures Converged(p, Reconciles(p, w, inps), crt) <==>
              p.kubeconfigs.Anyone? && (Drifts(p, w) ==> p.errors.updateSupported)
  {
    if p.kubeconfigs.Anyone? {
      ThreeReconcilesConverge(p, w, crt, inps);
    } else {
      ReconcilesKeepAdopting(p, w, inps);
      AdoptingHasNotConverged(p, Reconciles(p, w, inps), crt);
    }
  }

  lemma AdoptedSpec(p: Params, s: State, labels: seq<Label>)
    requires Init(s) && AdoptStart(s) && AdoptingRun(labels)
    ensures var w := Run(p, s, labels).w;
            && Inv(State(w, Idle))
            && (Cur(w).obj.Some? ==> Cur(w).obj.value.spec.planeID != "")
            && (p.kubeconfigs.ById? ==> AdoptInv(State(w, Idle)))
  {
    InitInv(s);
    RunKeepsInv(p, s, labels);
    UserEditsSurvive(p, s, labels);
    AdoptionWanted(SpecOf(Cur(s.w).obj), labels);
    if p.kubeconfigs.ById? {
      RunKeepsAdopting(p, s, labels);
    }
  }

  lemma {:induction false} AdoptionWanted(first: Option<Spec>, labels: seq<Label>)
    requires (first.Some? ==> first.value.planeID != "") && AdoptingRun(labels)
    ensures Wanted(first, labels).Some? ==> Wanted(first, labels).value.planeID != ""
  {
    if labels != [] {
      assert labels[|labels| - 1] in labels;
      AdoptionWanted(first, labels[..|labels| - 1]);
    }
  }

  /** Exactly when an adoption finishes: at any moment of a run that keeps
      spec.planeID set, if the plane it names is ready and its kubeconfig usable,
      three undisturbed reconciles complete the adoption if and only if the
      service does not look at the ID (and a drifting plane can be upgraded). */
  lemma AdoptionFinishes(p: Params, s: State, labels: seq<Label>, crt: Bytes, inps: seq<Input>)
    requires Init(s) && AdoptStart(s) && AdoptingRun(labels)
    requires var w := Run(p, s, labels).w;
             && Cur(w).obj.Some? && !Cur(w).obj.value.deleting && Cur(w).obj.value.spec.version != ""
             && GoalPlane(p, w).Some? && GoalPlane(p, w).value.plane.status == READY
             && CarriesCa(p, GoalKubeconfig(p, GoalPlane(p, w).value), crt)
             && AllCalm(p, GoalOf(p, w, crt), inps) && |inps| >= 3
    ensures var w := Run(p, s, labels).w;
            Converged(p, Reconciles(p, w, inps), crt) <==>
              p.kubeconfigs.Anyone? && (Drifts(p, w) ==> p.errors.updateSupported)
  {
    AdoptedSpec(p, s, labels);
    AdoptionSettles(p, Run(p, s, labels).w, crt, inps);
  }
}
