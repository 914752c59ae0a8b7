/** What the controller's writes to its object mean over whole runs. */
module Writes {
  import opened Domain
  import opened Stores
  import opened Controller
  import opened Runs
  import opened Safety

  // ---- Runs in time ----

  lemma Rejoin<T>(xs: seq<T>, n: nat)
    requires n <= |xs|
    ensures xs[..n] + xs[n..] == xs
  {
  }

  lemma Unsnoc<T>(xs: seq<T>, ys: seq<T>)
    requires ys != []
    ensures var front, last := ys[..|ys| - 1], ys[|ys| - 1];
            front + [last] == ys && (xs + front) + [last] == xs + ys
  {
  }

  lemma RunNothing(p: Params, s: State, a: seq<Label>)
    ensures Run(p, s, a + []) == Run(p, Run(p, s, a), [])
  {
    assert a + [] == a;
  }

  lemma BothGoOn(p: Params, s: State, t: State, a: seq<Label>, b: seq<Label>, l: Label)
    requires Run(p, s, a) == Run(p, t, b)
    ensures Run(p, s, a + [l]) == Run(p, t, b + [l])
  {
    RunSnoc(p, s, a, l);
    RunSnoc(p, t, b, l);
  }

  lemma {:induction false} RunAppend(p: Params, s: State, a: seq<Label>, b: seq<Label>)
    ensures Run(p, s, a + b) == Run(p, Run(p, s, a), b)
  {
    if b == [] {
      RunNothing(p, s, a);
    } else {
      var front, l := b[..|b| - 1], b[|b| - 1];
      Unsnoc(a, b);
      RunAppend(p, s, a, front);
      BothGoOn(p, s, Run(p, s, a), a + front, front, l);
    }
  }

  lemma RunSplit(p: Params, s: State, labels: seq<Label>, n: nat)
    requires n <= |labels|
    ensures Run(p, s, labels) == Run(p, Run(p, s, labels[..n]), labels[n..])
  {
    Rejoin(labels, n);
    RunAppend(p, s, labels[..n], labels[n..]);
  }

  lemma RunCons(p: Params, s: State, l: Label, rest: seq<Label>)
    ensures Run(p, s, [l] + rest) == Run(p, Apply(p, s, l), rest)
  {
    RunSplit(p, s, [l] + rest, 1);
    assert ([l] + rest)[..1] == [l] && ([l] + rest)[1..] == rest;
    RunSnoc(p, s, [], l);
    assert [] + [l] == [l];
  }

  lemma RunNext(p: Params, s: State, labels: seq<Label>, i: nat, s': State)
    requires i < |labels| && Apply(p, s, labels[i]) == s'
    ensures Run(p, s, labels[i..]) == Run(p, s', labels[i + 1..])
  {
    RunCons(p, s, labels[i], labels[i + 1..]);
    assert [labels[i]] + labels[i + 1..] == labels[i..];
  }

  lemma LogGrows(p: Params, s: State, labels: seq<Label>, n: nat)
    requires Inv(s) && n <= |labels|
    ensures Inv(Run(p, s, labels[..n])) && Inv(Run(p, s, labels))
    ensures Run(p, s, labels[..n]).w.log <= Run(p, s, labels).w.log
  {
    RunSplit(p, s, labels, n);
    RunKeepsInv(p, s, labels[..n]);
    RunKeepsInv(p, Run(p, s, labels[..n]), labels[n..]);
  }

  // ---- No lost updates ----

  /** One request changes at most one field of the object the controller owns. */
  ghost predicate ControllerWrite(o: ControlPlane, n: ControlPlane) {
    || n == o
    || n == o.(rv := n.rv, finalizer := true)
    || (o.deleting && n == o.(rv := n.rv, finalizer := false))
    || n == o.(rv := n.rv, spec := o.spec.(endpoint := n.spec.endpoint))
    || (o.status.planeID == "" && n == o.(rv := n.rv, status := o.status.(planeID := n.status.planeID)))
    || (n == o.(rv := n.rv, status := n.status) && n.status.ready && n.status.initialized)
  }

  lemma RequestWrites(p: Params, s: State, inp: Input)
    requires Inv(s)
    ensures var o, n := Cur(s.w).obj, Cur(Apply(p, s, Request(inp)).w).obj;
            && (o.None? ==> n.None?)
            && (o.Some? && n.Some? ==> ControllerWrite(o.value, n.value))
            && (o.Some? && n.None? ==> o.value.deleting && o.value.finalizer)
  {
    var c := RequestOf(p, s.k);
    if WritesObject(c) && Accepted(p, s.w, s.k) {
      WriteIsExact(p, s.w, s.k, inp);
    } else {
      OtherRequestsKeepObject(p, s.w, s.k, inp);
    }
  }

  lemma OtherRequestsKeepObject(p: Params, w: World, k: Worker, inp: Input)
    requires !(WritesObject(RequestOf(p, k)) && Accepted(p, w, k))
    ensures Cur(Serve(p, w, RequestOf(p, k), inp).0).obj == Cur(w).obj
  {
  }

  /** The spec as users last asked for it; None until the object is created. */
  function Wanted(first: Option<Spec>, labels: seq<Label>): Option<Spec> {
    if labels == [] then first
    else WantedNext(Wanted(first, labels[..|labels| - 1]), labels[|labels| - 1])
  }

  function WantedNext(spec: Option<Spec>, l: Label): Option<Spec> {
    match l
    case CreateObject(_, _, s) => if spec.None? then Some(s) else spec
    case Edit(s) => if spec.None? then None else Some(s)
    case _ => spec
  }

  lemma OthersKeepSpec(p: Params, s: State, l: Label)
    requires Inv(s) && Aside(l)
    ensures Cur(Apply(p, s, l).w).obj == Cur(s.w).obj
  {
  }

  /** The fields of the spec that only users write are the wanted ones. */
  ghost predicate AsWanted(w: World, spec: Option<Spec>) {
    && (w.born.Some? <==> spec.Some?)
    && (Cur(w).obj.Some? ==>
          && spec.Some?
          && Cur(w).obj.value.spec.version == spec.value.version
          && Cur(w).obj.value.spec.planeID == spec.value.planeID)
  }

  /** The place of the creation is never revised. */
  lemma BornStays(p: Params, s: State, l: Label)
    ensures s.w.born.Some? ==> Apply(p, s, l).w.born == s.w.born
    ensures !l.CreateObject? ==> Apply(p, s, l).w.born == s.w.born
  {
  }

  lemma RequestKeepsEdits(p: Params, s: State, inp: Input, spec: Option<Spec>)
    requires Inv(s) && AsWanted(s.w, spec)
    ensures AsWanted(Apply(p, s, Request(inp)).w, spec)
  {
    BornStays(p, s, Request(inp));
    RequestWrites(p, s, inp);
  }

  lemma ApplyKeepsEdits(p: Params, s: State, l: Label, spec: Option<Spec>)
    requires Inv(s) && AsWanted(s.w, spec)
    ensures AsWanted(Apply(p, s, l).w, WantedNext(spec, l))
  {
    BornStays(p, s, l);
    if l.Request? {
      RequestKeepsEdits(p, s, l.inp, spec);
    } else if ByUser(l) {
      UserStep(p, s, l);
    } else if !l.CreateObject? {
      OthersKeepSpec(p, s, l);
    }
  }

  /** No lost updates: whatever the controller wrote in between from outdated
      copies, the stored version and plane ID are those of the last user edit,
      or of the creation. */
  lemma {:induction false} UserEditsSurvive(p: Params, s: State, labels: seq<Label>)
    requires Init(s)
    ensures AsWanted(Run(p, s, labels).w, Wanted(SpecOf(Cur(s.w).obj), labels))
  {
    if labels != [] {
      var before := labels[..|labels| - 1];
      UserEditsSurvive(p, s, before);
      InitInv(s);
      RunKeepsInv(p, s, before);
      ApplyKeepsEdits(p, Run(p, s, before), labels[|labels| - 1], Wanted(SpecOf(Cur(s.w).obj), before));
    }
  }

  function SpecOf(o: Option<ControlPlane>): Option<Spec> {
    if o.Some? then Some(o.value.spec) else None
  }

  lemma {:induction false} RunKeepsBorn(p: Params, s: State, labels: seq<Label>)
    ensures s.w.born.Some? ==> Run(p, s, labels).w.born == s.w.born
  {
    if labels != [] {
      RunKeepsBorn(p, s, labels[..|labels| - 1]);
      BornStays(p, Run(p, s, labels[..|labels| - 1]), labels[|labels| - 1]);
    }
  }

  /** What may have become of an object from one moment to a later one. */
  ghost predicate Sticks(a: World, b: World) {
    var o, n := Cur(a).obj, Cur(b).obj;
    && (n.Some? ==> (a.born.Some? ==> o.Some?) && n.value.status.ready == n.value.status.initialized)
    && (n.Some? && o.Some? ==>
          && (o.value.status.initialized ==> n.value.status.initialized)
          && (o.value.status.ready ==> n.value.status.ready)
          && (o.value.deleting ==> n.value.deleting)
          && o.value.rv <= n.value.rv)
  }

  lemma LogsStick(a: World, b: World)
    requires LogOK(a) && LogOK(b) && a.log <= b.log && (a.born.Some? ==> b.born == a.born)
    ensures Sticks(a, b)
  {
    assert Cur(a) == b.log[|a.log| - 1] && Cur(b) == b.log[|b.log| - 1];
    assert InStep(b.log[|a.log| - 1].obj, b.rev) && InStep(b.log[|b.log| - 1].obj, b.rev);
    if Cur(a).obj.Some? || a.born.Some? {
      assert Since(b) <= |a.log| - 1;
      assert Evolves(b.log[|a.log| - 1].obj, b.log[|b.log| - 1].obj);
    }
  }

  /** The mirror image: no write of anybody rolls back what the controller
      reported. A deletion request is never undone, `initialized` never goes
      back, `ready` says the same as `initialized`, and an object that is gone
      stays gone. */
  lemma StickyStatus(p: Params, s: State, labels: seq<Label>, n: nat)
    requires Init(s) && n <= |labels|
    ensures Sticks(Run(p, s, labels[..n]).w, Run(p, s, labels).w)
  {
    InitInv(s);
    LogGrows(p, s, labels, n);
    RunSplit(p, s, labels, n);
    RunKeepsBorn(p, Run(p, s, labels[..n]), labels[n..]);
    LogsStick(Run(p, s, labels[..n]).w, Run(p, s, labels).w);
  }

  // ---- The ready commit ----

  /** At the instant the final status write reaches the store, status and spec
      agree on the version, and the published endpoint is that of the plane
      that was read as ready: even if a user edited the spec meanwhile. */
  lemma ReadyCommit(p: Params, s: State, inp: Input)
    requires Inv(s) && s.k.Committing? && inp.outcome != Fails
    requires StatusAccepted(s.w, Committed(s.k.ctx))
    ensures var o := Cur(Apply(p, s, Request(inp)).w).obj;
            && o.Some?
            && o.value.spec == Cur(s.w).obj.value.spec
            && o.value.status == Status(true, true, s.k.ctx.id, o.value.spec.version)
            && s.k.ctx.id == IdOf(Cur(s.w).obj.value)
            && o.value.spec.endpoint == Desired(s.k.ctx.plane)
            && s.k.ctx.plane.status == READY
  {
    WriteIsExact(p, s.w, s.k, inp);
    assert InStep(s.w.log[|s.w.log| - 1].obj, s.w.rev);
  }

  predicate IsInitialized(o: Option<ControlPlane>) {
    o.Some? && o.value.status.initialized
  }

  lemma RequestReports(p: Params, w: World, k: Worker, inp: Input)
    requires Inv(State(w, k)) && !k.Committing?
    ensures IsInitialized(Cur(Serve(p, w, RequestOf(p, k), inp).0).obj) ==> IsInitialized(Cur(w).obj)
  {
    if Accepted(p, w, k) {
      WriteIsExact(p, w, k, inp);
    } else {
      OtherRequestsKeepObject(p, w, k, inp);
    }
  }

  /** Only the final write reports readiness. */
  lemma ReadyOnlyByCommit(p: Params, s: State, l: Label)
    requires Inv(s)
    ensures IsInitialized(Cur(Apply(p, s, l).w).obj) ==>
              || IsInitialized(Cur(s.w).obj)
              || (s.k.Committing? && l.Request? && l.inp.outcome != Fails && Accepted(p, s.w, s.k))
  {
    if l.Request? {
      if s.k.Committing? {
        if !Accepted(p, s.w, s.k) { OtherRequestsKeepObject(p, s.w, s.k, l.inp); }
      } else {
        RequestReports(p, s.w, s.k, l.inp);
      }
    } else if ByUser(l) {
      UserStep(p, s, l);
    } else if !l.CreateObject? {
      OthersKeepSpec(p, s, l);
    }
  }

  // ---- No lost wake-up ----

  /** A finished reconcile that will be run again: it failed, asked for a later
      run, or its last commit changed the very object whose changes trigger
      reconciles. */
  predicate WakesUp(end: End, before: World, after: World) {
    || end.Failed?
    || (end.Requeue? && end.seconds > 0)
    || (end.Wrote? && |after.log| > |before.log| && after.log[|after.log| - 2].obj != Cur(after).obj)
  }

  /** How the code between two requests can finish a reconcile. */
  lemma ResumeEnds(p: Params, k: Worker, r: Reply, inp: Input)
    requires !Stopped(k)
    ensures var k' := Resume(p, k, r, inp);
            && Rank(k') < Rank(k) && !k'.Idle? && !k'.Reading?
            && (k'.Done? ==>
                  || k'.end.Failed?
                  || (k'.end.Requeue? && k'.end.seconds > 0)
                  || (k'.end.Wrote? && r.Object? && (k.AddingFinalizer? || k.RemovingFinalizer?))
                  || (k'.end.Gone? && k.Reading? && r.Absent?)
                  || (k.CheckingOwner? && (r.NotOwned? || r.IsPaused?)))
  {
  }

  lemma FinalizerWriteShows(p: Params, w: World, k: Worker, inp: Input)
    requires Inv(State(w, k)) && (k.AddingFinalizer? || k.RemovingFinalizer?)
    requires Serve(p, w, RequestOf(p, k), inp).1.Object?
    ensures var w' := Serve(p, w, RequestOf(p, k), inp).0;
            |w'.log| > |w.log| && w'.log[|w'.log| - 2].obj != Cur(w').obj
  {
    WriteIsExact(p, w, k, inp);
    assert InStep(w.log[|w.log| - 1].obj, w.rev);
  }

  lemma EndsWake(p: Params, w: World, k: Worker, inp: Input)
    requires Inv(State(w, k)) && !Stopped(k) && inp.gate.Proceed?
    requires k.Reading? ==> Read(w, inp.lag).obj.Some?
    ensures var (w', k') := Step(p, w, k, inp);
            && Rank(k') < Rank(k) && !k'.Idle? && !k'.Reading?
            && (k'.Done? ==> WakesUp(k'.end, w, w'))
  {
    var (w', r) := Serve(p, w, RequestOf(p, k), inp);
    ResumeEnds(p, k, r, inp);
    ResumeEnds(p, k, Unavailable, inp);
    if (k.AddingFinalizer? || k.RemovingFinalizer?) && r.Object? {
      FinalizerWriteShows(p, w, k, inp);
    }
  }

  lemma WakeStep(p: Params, w: World, k: Worker, inp: Input)
    requires Inv(State(w, k)) && !Stopped(k) && inp.gate.Proceed?
    requires k.Reading? ==> Read(w, inp.lag).obj.Some?
    ensures var (w', k') := Step(p, w, k, inp);
            && Inv(State(w', k')) && |w.log| <= |w'.log|
            && Rank(k') < Rank(k) && !k'.Idle? && !k'.Reading?
            && (k'.Done? ==> WakesUp(k'.end, w, w'))
  {
    StepKeepsInv(p, State(w, k), inp);
    EndsWake(p, w, k, inp);
  }

  /** The reconcile waiting at k runs to an end that wakes it up again. */
  ghost predicate EndsAwake(p: Params, w: World, k: Worker, script: nat -> Input, pos: nat) {
    var (w', k') := Exec(p, w, k, script, pos);
    k'.Done? && WakesUp(k'.end, w, w')
  }

  lemma AwakeEarlier(p: Params, w: World, k: Worker, w1: World, k1: Worker, script: nat -> Input, pos: nat)
    requires !Stopped(k) && Step(p, w, k, script(pos)) == (w1, k1) && |w.log| <= |w1.log|
    requires if k1.Done? then WakesUp(k1.end, w, w1) else EndsAwake(p, w1, k1, script, pos + 1)
    ensures EndsAwake(p, w, k, script, pos)
  {
    assert Exec(p, w, k, script, pos) == Exec(p, w1, k1, script, pos + 1);
    if k1.Done? {
      assert Exec(p, w1, k1, script, pos + 1) == (w1, k1);
    }
  }

  /** One request on: the reconcile either ends awake or waits at (w1, k1). */
  lemma AwakeOrOn(p: Params, w: World, k: Worker, script: nat -> Input, pos: nat) returns (w1: World, k1: Worker)
    requires Inv(State(w, k)) && !Stopped(k) && script(pos).gate.Proceed?
    requires k.Reading? ==> Read(w, script(pos).lag).obj.Some?
    ensures k1.Done? ==> EndsAwake(p, w, k, script, pos)
    ensures EndsAwake(p, w1, k1, script, pos + 1) ==> EndsAwake(p, w, k, script, pos)
    ensures Inv(State(w1, k1)) && Rank(k1) < Rank(k) && !k1.Idle? && !k1.Reading?
  {
    var (w', k') := Step(p, w, k, script(pos));
    w1, k1 := w', k';
    WakeStep(p, w, k, script(pos));
    if k1.Done? || EndsAwake(p, w1, k1, script, pos + 1) {
      AwakeEarlier(p, w, k, w1, k1, script, pos);
    }
  }

  /** Every reconcile of an owned and unpaused object whose read finds it ends
      in a way that wakes it up again. */
  lemma {:induction false} NoLostWakeUp(p: Params, w: World, k: Worker, script: nat -> Input, pos: nat)
    requires Inv(State(w, k)) && !Stopped(k)
    requires k.Reading? ==> Read(w, script(pos).lag).obj.Some?
    requires forall i :: script(i).gate.Proceed?
    ensures EndsAwake(p, w, k, script, pos)
    decreases Rank(k)
  {
    var w1, k1 := AwakeOrOn(p, w, k, script, pos);
    if !k1.Done? {
      NoLostWakeUp(p, w1, k1, script, pos + 1);
    }
  }

  /** The same inside any run, where users, crashes and everybody else may act
      between two requests: the request that ends a reconcile of an owned and
      unpaused object it has read leaves it to be run again. */
  lemma EveryEndWakes(p: Params, s: State, labels: seq<Label>, inp: Input)
    requires Init(s) && inp.gate.Proceed?
    ensures var t := Run(p, s, labels);
            var t' := Apply(p, t, Request(inp));
            !Stopped(t.k) && !t.k.Reading? && t'.k.Done? ==> WakesUp(t'.k.end, t.w, t'.w)
  {
    InitInv(s);
    RunKeepsInv(p, s, labels);
    var t := Run(p, s, labels);
    if !Stopped(t.k) && !t.k.Reading? {
      EndsWake(p, t.w, t.k, inp);
    }
  }

  // ---- Which plane the credentials come from ----

  /** The kubeconfig and CA fetches ask for the resolved plane exactly when
      spec.planeID is empty or is the recorded ID. */
  lemma CredentialsOfResolvedPlane(p: Params, s: State, labels: seq<Label>)
    requires Init(s)
    ensures var k := Run(p, s, labels).k;
            k.FetchingKubeconfig? || k.FetchingCa? ==>
              && RequestOf(p, k).GetKubeconfig?
              && (RequestOf(p, k).id == k.ctx.id <==>
                    k.ctx.ncp.spec.planeID == "" || k.ctx.ncp.spec.planeID == k.ctx.ncp.status.planeID)
  {
    InitInv(s);
    RunKeepsInv(p, s, labels);
    FetchesAtPlace(p, Run(p, s, labels).k);
  }

  lemma FetchesAtPlace(p: Params, k: Worker)
    requires Placed(k)
    ensures k.FetchingKubeconfig? || k.FetchingCa? ==>
              && RequestOf(p, k).GetKubeconfig?
              && (RequestOf(p, k).id == k.ctx.id <==>
                    k.ctx.ncp.spec.planeID == "" || k.ctx.ncp.spec.planeID == k.ctx.ncp.status.planeID)
  {
  }
}
