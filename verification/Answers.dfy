/** What the result of a reconcile means, told from the stores: when it is left
    alone, what each delay says, and that nothing but a failure is a failure. */
module Answers {
  import opened Domain
  import opened Stores
  import opened Controller
  import opened Runs
  import opened Safety
  import opened Writes
  import opened Provenance

  // ---- The gate ----

  /** Owner and pause state have not been found to allow anything. */
  predicate AtGate(k: Worker) {
    Stopped(k) || k.Reading? || k.CheckingOwner?
  }

  lemma GateStep(p: Params, w: World, k: Worker, inp: Input)
    requires AtGate(k)
    ensures var (w', k') := Step(p, w, k, inp);
            && w' == w
            && (!AtGate(k') ==> k.CheckingOwner? && inp.outcome.Success? && inp.gate.Proceed?)
  {
  }

  /** At moment n of this reconcile the object was owned and not paused. */
  ghost predicate GateOpenAt(p: Params, s: State, labels: seq<Label>, n: nat) {
    && n < |labels| && Unbroken(p, s, labels, n)
    && Run(p, s, labels[..n]).k.CheckingOwner?
    && labels[n].Request? && labels[n].inp.outcome.Success? && labels[n].inp.gate.Proceed?
  }

  lemma GateOpenLonger(p: Params, s: State, labels: seq<Label>, n: nat)
    requires labels != [] && GateOpenAt(p, s, labels[..|labels| - 1], n) && !Stopped(Run(p, s, labels).k)
    ensures GateOpenAt(p, s, labels, n)
  {
    UnbrokenLonger(p, s, labels, n);
    assert labels[..|labels| - 1][..n] == labels[..n];
  }

  /** No reconcile gets any further than the gate unless it found it open. */
  lemma {:induction false} PassedGate(p: Params, s: State, labels: seq<Label>) returns (n: nat)
    requires s.k.Idle?
    ensures !AtGate(Run(p, s, labels).k) ==> GateOpenAt(p, s, labels, n)
  {
    n := 0;
    if labels != [] {
      var before, l := labels[..|labels| - 1], labels[|labels| - 1];
      var t := Run(p, s, before);
      n := PassedGate(p, s, before);
      if !AtGate(Run(p, s, labels).k) {
        if !AtGate(t.k) {
          GateOpenLonger(p, s, labels, n);
        } else {
          GateStep(p, t.w, t.k, l.inp);
          UnbrokenNow(p, s, labels);
          n := |before|;
        }
      }
    }
  }

  /** Whoever asks for the owner of the object finds none, or finds it paused. */
  ghost predicate NeverProceeds(p: Params, s: State, labels: seq<Label>) {
    forall n :: 0 <= n < |labels| && labels[n].Request? && Run(p, s, labels[..n]).k.CheckingOwner? ==>
      !labels[n].inp.gate.Proceed?
  }

  /** Over any run of an object that is paused or unowned, whatever else happens:
      no request of its controller changes either store or reaches the service
      with a mutating call. */
  lemma PausedIsLeftAlone(p: Params, s: State, labels: seq<Label>, inp: Input)
    requires s.k.Idle? && NeverProceeds(p, s, labels)
    ensures var t := Run(p, s, labels); Apply(p, t, Request(inp)).w == t.w
  {
    var n := PassedGate(p, s, labels);
    GateStep(p, Run(p, s, labels).w, Run(p, s, labels).k, inp);
  }

  /** Ends that are not reached any more past the gate. */
  predicate EndsAtGate(k: Worker) {
    k.Done? && (k.end.Gone? || k.end.Unowned? || k.end.Paused?)
  }

  lemma ResumePastGate(p: Params, k: Worker, r: Reply, inp: Input)
    requires !AtGate(k)
    ensures !EndsAtGate(Resume(p, k, r, inp)) && !Resume(p, k, r, inp).Reading? && !Resume(p, k, r, inp).CheckingOwner?
    ensures Rank(Resume(p, k, r, inp)) < Rank(k)
  {
  }

  lemma {:induction false} ExecPastGate(p: Params, w: World, k: Worker, script: nat -> Input, pos: nat)
    requires !k.Reading? && !k.CheckingOwner? && !EndsAtGate(k)
    ensures !EndsAtGate(Exec(p, w, k, script, pos).1)
    decreases Rank(k)
  {
    if !Stopped(k) {
      var inp := script(pos);
      ResumePastGate(p, k, Serve(p, w, RequestOf(p, k), inp).1, inp);
      ResumePastGate(p, k, Unavailable, inp);
      var (w1, k1) := Step(p, w, k, inp);
      ExecPastGate(p, w1, k1, script, pos + 1);
    }
  }

  /** How the first two requests of a reconcile end it. */
  function GateAnswer(w: World, look: Input, check: Input): Option<End> {
    if !look.outcome.Success? then Some(Failed)
    else if Read(w, look.lag).obj.None? then Some(Gone)
    else if !check.outcome.Success? then Some(Failed)
    else match check.gate case NoOwner => Some(Unowned) case Held => Some(Paused) case Proceed => None
  }

  /** A reconcile that finds no object, or an unowned or a paused one, or cannot
      tell, leaves both stores as they are and says so; and it says so only then. */
  lemma GatedReconcile(p: Params, w: World, script: nat -> Input, pos: nat)
    ensures var answer := GateAnswer(w, script(pos), script(pos + 1));
            var (w', k') := Exec(p, w, Reading, script, pos);
            && (answer.Some? ==> (w', k') == (w, Done(answer.value)))
            && (answer.None? ==> !EndsAtGate(k'))
  {
    var look, check := script(pos), script(pos + 1);
    var (w1, k1) := Step(p, w, Reading, look);
    assert Exec(p, w, Reading, script, pos) == Exec(p, w1, k1, script, pos + 1);
    if k1.CheckingOwner? {
      var (w2, k2) := Step(p, w1, k1, check);
      assert Exec(p, w1, k1, script, pos + 1) == Exec(p, w2, k2, script, pos + 2);
      if GateAnswer(w, look, check).None? {
        ExecPastGate(p, w2, k2, script, pos + 2);
      }
    }
  }

  // ---- What an end says ----

  /** The plane with the resolved ID was read, and it is not ready. */
  predicate SeenUnready(s: State, inp: Input) {
    && inp.outcome.Success? && s.k.GettingPlane?
    && s.k.id in s.w.svc.planes && s.w.svc.planes[s.k.id].plane.status != "ready"
  }

  /** The service carried out an upgrade, and its reply arrived. */
  predicate UpgradeAnswered(s: State, s': State, inp: Input) {
    inp.outcome.Success? && |s'.w.events| > |s.w.events| && s'.w.events[|s'.w.events| - 1].Upgraded?
  }

  /** The store took the final status write, and its reply arrived. */
  predicate CommitAnswered(s: State, inp: Input) {
    && inp.outcome.Success? && s.k.Committing?
    && Cur(s.w).obj.Some? && Cur(s.w).obj.value.rv == s.k.ctx.ncp.rv
  }

  /** The store took the write that adds or removes the finalizer, and its reply
      arrived. */
  predicate FinalizerAnswered(s: State, inp: Input) {
    && inp.outcome.Success? && (s.k.AddingFinalizer? || s.k.RemovingFinalizer?)
    && Cur(s.w).obj.Some? && Cur(s.w).obj.value.rv == s.k.ncp.rv
    && (s.k.AddingFinalizer? ==> !Cur(s.w).obj.value.deleting)
  }

  lemma FinalizerTaken(p: Params, s: State)
    requires Inv(s) && (s.k.AddingFinalizer? || s.k.RemovingFinalizer?)
    ensures Accepted(p, s.w, s.k) <==>
              && Cur(s.w).obj.Some? && Cur(s.w).obj.value.rv == s.k.ncp.rv
              && (s.k.AddingFinalizer? ==> !Cur(s.w).obj.value.deleting)
  {
    if Cur(s.w).obj.Some? && Cur(s.w).obj.value.rv == s.k.ncp.rv {
      CopyIsCurrent(s.w, s.k.ncp);
    }
  }

  lemma FifteenMeans(p: Params, s: State, inp: Input)
    requires !Stopped(s.k)
    ensures Apply(p, s, Request(inp)).k == Done(Requeue(15)) <==> SeenUnready(s, inp)
  {
  }

  lemma ThirtyMeans(p: Params, s: State, inp: Input)
    requires !Stopped(s.k)
    ensures Apply(p, s, Request(inp)).k == Done(Requeue(30)) <==> UpgradeAnswered(s, Apply(p, s, Request(inp)), inp)
  {
  }

  lemma SixtyMeans(p: Params, s: State, inp: Input)
    requires !Stopped(s.k)
    ensures Apply(p, s, Request(inp)).k == Done(Requeue(60)) <==> CommitAnswered(s, inp)
  {
  }

  lemma NoOtherDelay(p: Params, k: Worker, r: Reply, inp: Input)
    requires !Stopped(k)
    ensures var k' := Resume(p, k, r, inp);
            k'.Done? && k'.end.Requeue? ==> k'.end.seconds in {15, 30, 60}
  {
  }

  lemma DelaysMean(p: Params, s: State, inp: Input)
    requires !Stopped(s.k)
    ensures var s' := Apply(p, s, Request(inp));
            && (s'.k == Done(Requeue(15)) <==> SeenUnready(s, inp))
            && (s'.k == Done(Requeue(30)) <==> UpgradeAnswered(s, s', inp))
            && (s'.k == Done(Requeue(60)) <==> CommitAnswered(s, inp))
            && (s'.k.Done? && s'.k.end.Requeue? ==> s'.k.end.seconds in {15, 30, 60})
  {
    FifteenMeans(p, s, inp);
    ThirtyMeans(p, s, inp);
    SixtyMeans(p, s, inp);
    NoOtherDelay(p, s.k, Serve(p, s.w, RequestOf(p, s.k), inp).1, inp);
    NoOtherDelay(p, s.k, Unavailable, inp);
  }

  lemma WroteMeans(p: Params, s: State, inp: Input)
    requires Inv(s) && !Stopped(s.k)
    ensures Apply(p, s, Request(inp)).k == Done(Wrote) <==> FinalizerAnswered(s, inp)
  {
    if s.k.AddingFinalizer? || s.k.RemovingFinalizer? {
      FinalizerTaken(p, s);
    }
  }

  lemma GateEndsMean(p: Params, s: State, inp: Input)
    requires !Stopped(s.k)
    ensures var s' := Apply(p, s, Request(inp));
            && (s'.k == Done(Gone) <==> s.k.Reading? && inp.outcome.Success? && Read(s.w, inp.lag).obj.None?)
            && (s'.k == Done(Unowned) <==> s.k.CheckingOwner? && inp.outcome.Success? && inp.gate.NoOwner?)
            && (s'.k == Done(Paused) <==> s.k.CheckingOwner? && inp.outcome.Success? && inp.gate.Held?)
  {
    if !AtGate(s.k) {
      ResumePastGate(p, s.k, Serve(p, s.w, RequestOf(p, s.k), inp).1, inp);
      ResumePastGate(p, s.k, Unavailable, inp);
    }
  }

  lemma UnansweredFails(p: Params, k: Worker, inp: Input)
    requires !Stopped(k) && !k.RecheckingCa?
    ensures Resume(p, k, Unavailable, inp) == Done(Failed)
  {
  }

  lemma WritesThatFail(p: Params, s: State, inp: Input)
    requires s.k.Upgrading? || s.k.Committing?
    ensures var s' := Apply(p, s, Request(inp));
            && (s.k.Upgrading? && !UpgradeAnswered(s, s', inp) ==> s'.k == Done(Failed))
            && (s.k.Committing? && !CommitAnswered(s, inp) ==> s'.k == Done(Failed))
  {
  }

  /** What the answered writes did. */
  ghost predicate Effects(s: State, s': State, inp: Input) {
    && (UpgradeAnswered(s, s', inp) ==>
          && s.k.Upgrading? && s'.w.events == s.w.events + [Upgraded(s.k.id)]
          && s.k.id in s'.w.svc.planes
          && (s.k.ncp.spec.version != "" ==> s'.w.svc.planes[s.k.id].plane.version == s.k.ncp.spec.version))
    && (CommitAnswered(s, inp) ==>
          && Cur(s'.w).obj.Some?
          && Cur(s'.w).obj.value.status == Status(true, true, s.k.ctx.id, s.k.ctx.plane.version)
          && Cur(s'.w).obj.value.spec == s.k.ctx.ncp.spec)
    && (FinalizerAnswered(s, inp) ==>
          Cur(s'.w).obj.Some? ==> (Cur(s'.w).obj.value.finalizer <==> s.k.AddingFinalizer?))
  }

  lemma UpgradeHadEffect(p: Params, s: State, inp: Input)
    ensures var s' := Apply(p, s, Request(inp));
            UpgradeAnswered(s, s', inp) ==>
              && s.k.Upgrading? && s'.w.events == s.w.events + [Upgraded(s.k.id)]
              && s.k.id in s'.w.svc.planes
              && (s.k.ncp.spec.version != "" ==> s'.w.svc.planes[s.k.id].plane.version == s.k.ncp.spec.version)
  {
  }

  lemma CommitHadEffect(p: Params, s: State, inp: Input)
    requires Inv(s) && CommitAnswered(s, inp)
    ensures var o := Cur(Apply(p, s, Request(inp)).w).obj;
            && o.Some?
            && o.value.status == Status(true, true, s.k.ctx.id, s.k.ctx.plane.version)
            && o.value.spec == s.k.ctx.ncp.spec
  {
    WriteIsExact(p, s.w, s.k, inp);
    assert InStep(s.w.log[|s.w.log| - 1].obj, s.w.rev);
  }

  lemma FinalizerHadEffect(p: Params, s: State, inp: Input)
    requires Inv(s) && FinalizerAnswered(s, inp)
    ensures var o := Cur(Apply(p, s, Request(inp)).w).obj;
            o.Some? ==> (o.value.finalizer <==> s.k.AddingFinalizer?)
  {
    FinalizerTaken(p, s);
    WriteIsExact(p, s.w, s.k, inp);
  }

  lemma AnswersHadEffect(p: Params, s: State, inp: Input)
    requires Inv(s)
    ensures Effects(s, Apply(p, s, Request(inp)), inp)
  {
    UpgradeHadEffect(p, s, inp);
    if CommitAnswered(s, inp) {
      CommitHadEffect(p, s, inp);
    }
    if FinalizerAnswered(s, inp) {
      FinalizerHadEffect(p, s, inp);
    }
  }

  /** The request that ends a reconcile, in any run: fifteen seconds say that the
      plane read under the resolved ID is not ready, thirty that the service
      carried out an upgrade to the version wanted, sixty that readiness is
      committed; an upgrade or a final write that was refused, or whose reply did
      not arrive, is a failure. */
  lemma DelaysTell(p: Params, s: State, labels: seq<Label>, inp: Input)
    requires Init(s) && !Stopped(Run(p, s, labels).k)
    ensures var t := Run(p, s, labels);
            var t' := Apply(p, t, Request(inp));
            && (t'.k == Done(Requeue(15)) <==> SeenUnready(t, inp))
            && (t'.k == Done(Requeue(30)) <==> UpgradeAnswered(t, t', inp))
            && (t'.k == Done(Requeue(60)) <==> CommitAnswered(t, inp))
            && (t'.k.Done? && t'.k.end.Requeue? ==> t'.k.end.seconds in {15, 30, 60})
            && (t.k.Upgrading? && !UpgradeAnswered(t, t', inp) ==> t'.k == Done(Failed))
            && (t.k.Committing? && !CommitAnswered(t, inp) ==> t'.k == Done(Failed))
            && Effects(t, t', inp)
  {
    InitInv(s);
    RunKeepsInv(p, s, labels);
    var t := Run(p, s, labels);
    DelaysMean(p, t, inp);
    if t.k.Upgrading? || t.k.Committing? {
      WritesThatFail(p, t, inp);
    }
    AnswersHadEffect(p, t, inp);
  }

  /** The other ends: a finalizer write that was taken ends the reconcile, and so
      do a missing, an unowned and a paused object; anything unanswered is a
      failure, but for the second look at the CA secret. */
  lemma OtherEndsTell(p: Params, s: State, labels: seq<Label>, inp: Input)
    requires Init(s) && !Stopped(Run(p, s, labels).k)
    ensures var t := Run(p, s, labels);
            var t' := Apply(p, t, Request(inp));
            && (t'.k == Done(Wrote) <==> FinalizerAnswered(t, inp))
            && (t'.k == Done(Gone) <==> t.k.Reading? && inp.outcome.Success? && Read(t.w, inp.lag).obj.None?)
            && (t'.k == Done(Unowned) <==> t.k.CheckingOwner? && inp.outcome.Success? && inp.gate.NoOwner?)
            && (t'.k == Done(Paused) <==> t.k.CheckingOwner? && inp.outcome.Success? && inp.gate.Held?)
            && (!inp.outcome.Success? && !t.k.RecheckingCa? ==> t'.k == Done(Failed))
  {
    InitInv(s);
    RunKeepsInv(p, s, labels);
    var t := Run(p, s, labels);
    WroteMeans(p, t, inp);
    GateEndsMean(p, t, inp);
    if !t.k.RecheckingCa? {
      UnansweredFails(p, t.k, inp);
    }
  }

  /** A reconcile ends with the answer to its last request, so what holds of the
      request that ends it holds of the whole reconcile. */
  lemma {:induction false} LastRequest(p: Params, w: World, k: Worker, script: nat -> Input, pos: nat)
      returns (w0: World, k0: Worker, i: nat)
    requires !Stopped(k)
    ensures !Stopped(k0) && pos <= i
    ensures Inv(State(w, k)) ==> Inv(State(w0, k0)) && w.log <= w0.log
    ensures Exec(p, w, k, script, pos) == Step(p, w0, k0, script(i))
    ensures Exec(p, w, k, script, pos).1.Done?
    decreases Rank(k)
  {
    var inp := script(pos);
    var (w1, k1) := Step(p, w, k, inp);
    if Inv(State(w, k)) {
      StepKeepsInv(p, State(w, k), inp);
    }
    ResumeEnds(p, k, Serve(p, w, RequestOf(p, k), inp).1, inp);
    ResumeEnds(p, k, Unavailable, inp);
    if Stopped(k1) {
      w0, k0, i := w, k, pos;
    } else {
      w0, k0, i := LastRequest(p, w1, k1, script, pos + 1);
    }
  }
}
