/** Pasts that mislead. Reads may show secrets from before the object existed:
    a key that is gone, or a secret of another type. From each past that is not
    sound, the controller alone can commit readiness without a CA secret. */
module Pasts {
  import opened Domain
  import opened Stores
  import opened Controller
  import opened Runs
  import opened Writes
  import opened Secrets
  import opened Convergence
  import opened Settling
  import opened StaleReads

  // ---- Undisturbed runs ----

  /** Reconciles that start, and requests that all meet the same input. */
  ghost predicate Calmly(labels: seq<Label>, inp: Input) {
    forall l :: l in labels ==> l == Start || l == Request(inp)
  }

  lemma CalmlyAppend(a: seq<Label>, b: seq<Label>, inp: Input)
    requires Calmly(a, inp) && Calmly(b, inp)
    ensures Calmly(a + b, inp)
  {
  }

  lemma RunOn(p: Params, s: State, a: seq<Label>, b: seq<Label>, t: State)
    requires Run(p, s, a) == t
    ensures Run(p, s, a + b) == Run(p, t, b)
  {
    RunAppend(p, s, a, b);
  }

  /** The way from (w, k) to (w', k'), during which the goal stays and the CA
      secret is not touched. */
  ghost predicate Way(p: Params, w: World, k: Worker, labels: seq<Label>, w': World, k': Worker, crt: Bytes, inp: Input) {
    && Calmly(labels, inp) && Run(p, State(w, k), labels) == State(w', k')
    && Heads(p, w, w', crt) && Coherent(p, w', k', crt) && CapableAt(p, w', k')
    && w.log <= w'.log && CaAt(p, Cur(w')) == CaAt(p, Cur(w))
  }

  lemma WayOn(p: Params, w: World, k: Worker, a: seq<Label>, w1: World, k1: Worker, b: seq<Label>, w2: World, k2: Worker, crt: Bytes, inp: Input)
    requires Way(p, w, k, a, w1, k1, crt, inp) && Way(p, w1, k1, b, w2, k2, crt, inp)
    ensures Way(p, w, k, a + b, w2, k2, crt, inp)
  {
    CalmlyAppend(a, b, inp);
    RunOn(p, State(w, k), a, b, State(w1, k1));
  }

  lemma NotPastYet(p: Params, k: Worker, r: Reply, inp: Input)
    requires !PastKubeconfig(k)
    ensures PastKubeconfig(Resume(p, k, r, inp)) ==> Resume(p, k, r, inp).CheckingCa?
  {
  }

  lemma RequestRun(p: Params, w: World, k: Worker, inp: Input)
    ensures var (w', k') := Step(p, w, k, inp);
            Run(p, State(w, k), [Request(inp)]) == State(w', k')
  {
    RunSnoc(p, State(w, k), [], Request(inp));
    assert [] + [Request(inp)] == [Request(inp)];
  }

  /** One calm request before the first look. */
  lemma WayStep(p: Params, w: World, k: Worker, crt: Bytes, inp: Input)
    requires Serviceable(p, w, crt) && Coherent(p, w, k, crt) && CapableAt(p, w, k) && Calm(p, GoalOf(p, w, crt), inp)
    requires !Stopped(k) && !PastKubeconfig(k)
    ensures var (w', k') := Step(p, w, k, inp);
            && Way(p, w, k, [Request(inp)], w', k', crt, inp)
            && (!Stopped(k') || Distance(p, w') < Distance(p, w))
            && (PastKubeconfig(k') ==> k'.CheckingCa?)
  {
    var (w', k') := Step(p, w, k, inp);
    StepHeads(p, w, k, crt, inp);
    CalmStep(p, w, k, crt, inp);
    StaysCapable(p, w, k, crt, inp);
    StepAdvances(p, w, k, inp);
    StepAppends(p, w, k, inp);
    NotPastYet(p, k, Serve(p, w, RequestOf(p, k), inp).1, inp);
    RequestRun(p, w, k, inp);
  }

  /** A calm reconcile comes to its first look, or ends having got nearer. */
  lemma {:induction false} WayToLook(p: Params, w: World, k: Worker, crt: Bytes, inp: Input)
      returns (labels: seq<Label>, w': World, k': Worker)
    requires Serviceable(p, w, crt) && Coherent(p, w, k, crt) && CapableAt(p, w, k) && Calm(p, GoalOf(p, w, crt), inp)
    requires !Stopped(k) && !PastKubeconfig(k)
    ensures Way(p, w, k, labels, w', k', crt, inp)
    ensures k'.CheckingCa? || (Stopped(k') && Distance(p, w') < Distance(p, w))
    decreases Rank(k)
  {
    var (w1, k1) := Step(p, w, k, inp);
    WayStep(p, w, k, crt, inp);
    labels, w', k' := [Request(inp)], w1, k1;
    if !Stopped(k1) && !k1.CheckingCa? {
      RankDrops(p, w, k, inp);
      var rest, w2, k2 := WayToLook(p, w1, k1, crt, inp);
      WayOn(p, w, k, labels, w1, k1, rest, w2, k2, crt, inp);
      labels, w', k' := labels + rest, w2, k2;
    }
  }

  lemma StartWay(p: Params, w: World, k: Worker, crt: Bytes, inp: Input)
    requires Serviceable(p, w, crt) && Capable(p, w) && Stopped(k)
    ensures Way(p, w, k, [Start], w, Reading, crt, inp)
  {
    Restart(p, w, crt);
    StartRun(p, w, k);
    CapableAtStart(p, w);
  }

  lemma StartRun(p: Params, w: World, k: Worker)
    requires Stopped(k)
    ensures Run(p, State(w, k), [Start]) == State(w, Reading)
  {
    RunSnoc(p, State(w, k), [], Start);
    assert [] + [Start] == [Start];
  }

  lemma CapableAtStart(p: Params, w: World)
    requires Capable(p, w)
    ensures CapableAt(p, w, Reading)
  {
  }

  /** From any serviceable world, calm reconciles come to a first look. */
  lemma {:induction false} WayToFirstLook(p: Params, w: World, k: Worker, crt: Bytes, inp: Input)
      returns (labels: seq<Label>, w': World, k': Worker)
    requires Serviceable(p, w, crt) && Capable(p, w) && Calm(p, GoalOf(p, w, crt), inp) && Stopped(k)
    ensures Way(p, w, k, labels, w', k', crt, inp) && k'.CheckingCa?
    decreases Distance(p, w)
  {
    StartWay(p, w, k, crt, inp);
    Restart(p, w, crt);
    var first, w1, k1 := WayToLook(p, w, Reading, crt, inp);
    WayOn(p, w, k, [Start], w, Reading, first, w1, k1, crt, inp);
    labels, w', k' := [Start] + first, w1, k1;
    if Stopped(k1) {
      var rest, w2, k2 := WayToFirstLook(p, w1, k1, crt, inp);
      WayOn(p, w, k, labels, w1, k1, rest, w2, k2, crt, inp);
      labels, w', k' := labels + rest, w2, k2;
    }
  }

  // ---- A key that is shown but gone ----

  lemma LagOf(w: World, i: nat) returns (lag: nat)
    requires i < |w.log|
    ensures Read(w, lag) == w.log[i]
  {
    lag := |w.log| - 1 - i;
  }

  ghost predicate BareCommitAt(p: Params, s: State, inp: Input) {
    CommitAccepted(p, s, inp) && !ConsistentAfter(p, s, inp)
  }

  lemma BareCommitAccepted(p: Params, s: State, c: Ctx, inp: Input)
    requires s.k == Committing(c) && Cur(s.w).obj == Some(c.ncp) && !HasKey(CaAt(p, Cur(s.w))) && inp.outcome.Success?
    ensures BareCommitAt(p, s, inp)
  {
    CommitKeepsSecrets(p, s, inp);
  }

  lemma ShownKeyCommits(p: Params, w: World, c: Ctx, lag: nat, inp: Input)
    requires HasKey(CaAt(p, Read(w, lag))) && inp.outcome.Success?
    ensures Run(p, State(w, CheckingCa(c)), [Request(inp.(lag := lag))]) == State(w, Committing(c))
  {
    var l := Request(inp.(lag := lag));
    assert Apply(p, State(w, CheckingCa(c)), l) == State(w, Committing(c));
    RunSnoc(p, State(w, CheckingCa(c)), [], l);
    assert [] + [l] == [l];
  }

  lemma LookAtGoneKey(p: Params, w: World, k: Worker, crt: Bytes, lag: nat, inp: Input)
    requires k.CheckingCa? && Aware(p, w, k, crt) && inp.outcome.Success?
    requires HasKey(CaAt(p, Read(w, lag))) && !HasKey(CaAt(p, Cur(w)))
    ensures BareCommitAt(p, Run(p, State(w, k), [Request(inp.(lag := lag))]), inp)
  {
    ShownKeyCommits(p, w, k.ctx, lag, inp);
    BareCommitAccepted(p, State(w, Committing(k.ctx)), k.ctx, inp);
  }

  ghost predicate GoneKey(p: Params, log: Log, i: nat) {
    i < |log| && HasKey(CaAt(p, log[i])) && !HasKey(CaAt(p, log[|log| - 1]))
  }

  lemma KeyStaysGone(p: Params, w: World, w': World, i: nat) returns (lag: nat)
    requires GoneKey(p, w.log, i) && w.log <= w'.log && CaAt(p, Cur(w')) == CaAt(p, Cur(w))
    ensures HasKey(CaAt(p, Read(w', lag))) && !HasKey(CaAt(p, Cur(w')))
  {
    lag := LagOf(w', i);
  }

  /** An earlier key that a look still shows, while there is none: one outdated
      read, all others fresh, and readiness is committed without a key. */
  lemma GoneKeyCommitsBare(p: Params, s: State, crt: Bytes, inp: Input, i: nat) returns (past: seq<Label>, lag: nat)
    requires Stopped(s.k) && Serviceable(p, s.w, crt) && Capable(p, s.w) && Calm(p, GoalOf(p, s.w, crt), inp)
    requires GoneKey(p, s.w.log, i)
    ensures Calmly(past, inp) && BareCommitAt(p, Run(p, s, past + [Request(inp.(lag := lag))]), inp)
  {
    var w', k';
    past, w', k' := WayToFirstLook(p, s.w, s.k, crt, inp);
    lag := KeyStaysGone(p, s.w, w', i);
    LookAtGoneKey(p, w', k', crt, lag, inp);
    RunOn(p, s, past, [Request(inp.(lag := lag))], State(w', k'));
  }

  // ---- A secret of another type ----

  /** A reconcile of a settled world up to its first look; the kubeconfig secret
      may be read from an earlier snapshot that shows the same one. */
  function ToCa(inp: Input, lag: nat): seq<Label> {
    [Start, Request(inp), Request(inp), Request(inp), Request(inp), Request(inp), Request(inp.(lag := lag)), Request(inp)]
  }

  lemma RequestNext(p: Params, s: State, labels: seq<Label>, i: nat, inp: Input, s': State)
    requires i < |labels| && labels[i] == Request(inp) && Step(p, s.w, s.k, inp) == (s'.w, s'.k)
    ensures Run(p, s, labels[i..]) == Run(p, s', labels[i + 1..])
  {
    RunNext(p, s, labels, i, s');
  }

  lemma StepsToPlane(p: Params, w: World, c: Ctx, inp: Input)
    requires DoneButCa(p, w, c) && Smooth(inp)
    ensures Step(p, w, Reading, inp) == (w, CheckingOwner(c.ncp))
    ensures Step(p, w, CheckingOwner(c.ncp), inp) == (w, Authenticating(c.ncp))
    ensures Step(p, w, Authenticating(c.ncp), inp) == (w, GettingPlane(c.ncp, c.id))
  {
  }

  lemma ToPlane(p: Params, s: State, c: Ctx, inp: Input, lag: nat)
    requires Stopped(s.k) && DoneButCa(p, s.w, c) && Smooth(inp)
    ensures Run(p, s, ToCa(inp, lag)) == Run(p, s.(k := GettingPlane(c.ncp, c.id)), ToCa(inp, lag)[4..])
  {
    var labels := ToCa(inp, lag);
    var s1, s2 := s.(k := Reading), s.(k := CheckingOwner(c.ncp));
    var s3, s4 := s.(k := Authenticating(c.ncp)), s.(k := GettingPlane(c.ncp, c.id));
    StepsToPlane(p, s.w, c, inp);
    RunNext(p, s, labels, 0, s1);
    RequestNext(p, s1, labels, 1, inp, s2);
    RequestNext(p, s2, labels, 2, inp, s3);
    RequestNext(p, s3, labels, 3, inp, s4);
    assert labels[0..] == labels;
  }

  lemma PlaneReadStep(p: Params, w: World, c: Ctx, inp: Input)
    requires DoneButCa(p, w, c) && Smooth(inp)
    ensures Step(p, w, GettingPlane(c.ncp, c.id), inp) == (w, FetchingKubeconfig(c))
  {
  }

  lemma KubeconfigFetchStep(p: Params, w: World, c: Ctx, inp: Input)
    requires DoneButCa(p, w, c) && Smooth(inp)
    ensures Step(p, w, FetchingKubeconfig(c), inp) == (w, ReadingKubeconfigSecret(c, KcOf(p, w, c.id)))
  {
  }

  ghost predicate SameKubeconfig(p: Params, w: World, lag: nat) {
    KubeconfigAt(p, Read(w, lag)) == KubeconfigAt(p, Cur(w))
  }

  lemma KubeconfigReadStep(p: Params, w: World, c: Ctx, inp: Input, lag: nat)
    requires DoneButCa(p, w, c) && Smooth(inp) && SameKubeconfig(p, w, lag)
    ensures Step(p, w, ReadingKubeconfigSecret(c, KcOf(p, w, c.id)), inp.(lag := lag))
         == (w, UpdatingKubeconfigSecret(c, KcOf(p, w, c.id), KubeconfigAt(p, Cur(w)).value))
  {
  }

  lemma KubeconfigUpdateStep(p: Params, w: World, c: Ctx, inp: Input)
    requires DoneButCa(p, w, c) && Smooth(inp)
    ensures Step(p, w, UpdatingKubeconfigSecret(c, KcOf(p, w, c.id), KubeconfigAt(p, Cur(w)).value), inp) == (w, CheckingCa(c))
  {
  }

  lemma PlaneToCa(p: Params, s: State, c: Ctx, inp: Input, lag: nat)
    requires s.k == GettingPlane(c.ncp, c.id) && DoneButCa(p, s.w, c) && Smooth(inp) && SameKubeconfig(p, s.w, lag)
    ensures Run(p, s, ToCa(inp, lag)[4..]) == s.(k := CheckingCa(c))
  {
    var labels := ToCa(inp, lag);
    var kc, x := KcOf(p, s.w, c.id), KubeconfigAt(p, Cur(s.w)).value;
    var s1, s2 := s.(k := FetchingKubeconfig(c)), s.(k := ReadingKubeconfigSecret(c, kc));
    var s3, s4 := s.(k := UpdatingKubeconfigSecret(c, kc, x)), s.(k := CheckingCa(c));
    PlaneReadStep(p, s.w, c, inp);
    KubeconfigFetchStep(p, s.w, c, inp);
    KubeconfigReadStep(p, s.w, c, inp, lag);
    KubeconfigUpdateStep(p, s.w, c, inp);
    RequestNext(p, s, labels, 4, inp, s1);
    RequestNext(p, s1, labels, 5, inp, s2);
    RequestNext(p, s2, labels, 6, inp.(lag := lag), s3);
    RequestNext(p, s3, labels, 7, inp, s4);
  }

  lemma ReachesCa(p: Params, s: State, c: Ctx, inp: Input, lag: nat)
    requires Stopped(s.k) && DoneButCa(p, s.w, c) && Smooth(inp) && SameKubeconfig(p, s.w, lag)
    ensures Run(p, s, ToCa(inp, lag)) == s.(k := CheckingCa(c))
  {
    ToPlane(p, s, c, inp, lag);
    PlaneToCa(p, s.(k := GettingPlane(c.ncp, c.id)), c, inp, lag);
  }

  /** A first look that misses the key, a second at a secret of another type, the
      deletion of its successor, and a creation that fails. */
  function DropOnly(inp: Input, first: nat, second: nat): seq<Label> {
    [Request(inp.(lag := first)), Request(inp), Request(inp.(lag := second)), Request(inp), Request(inp.(outcome := Fails))]
  }

  ghost predicate Misleads(p: Params, w: World, first: nat, second: nat) {
    var x := CaAt(p, Read(w, second));
    !HasKey(CaAt(p, Read(w, first))) && x.Some? && x.value.kind != CLUSTER_SECRET
  }

  lemma MissedSteps(p: Params, w: World, c: Ctx, first: nat, second: nat, inp: Input)
    requires Smooth(inp) && CaAvailable(p, w, c, inp) && Misleads(p, w, first, second)
    ensures var x := CaAt(p, Read(w, first));
            var crt := PickCa(p, KubeconfigReply(p, w.svc, c.ncp.status.planeID).bytes, inp.pick);
            && Step(p, w, CheckingCa(c), inp.(lag := first)) == (w, FetchingCa(c, x))
            && Step(p, w, FetchingCa(c, x), inp) == (w, RecheckingCa(c, x, crt, inp.key))
            && Step(p, w, RecheckingCa(c, x, crt, inp.key), inp.(lag := second)) == (w, DroppingCa(c, crt, inp.key))
  {
  }

  lemma FailedCreationStep(p: Params, w: World, c: Ctx, crt: Bytes, key: Bytes, inp: Input)
    ensures Step(p, w, CreatingCa(c, crt, key), inp.(outcome := Fails)) == (w, Done(Failed))
  {
  }

  lemma Dropped(p: Params, s: State, c: Ctx, inp: Input, first: nat, second: nat)
    requires s.k == CheckingCa(c) && Smooth(inp) && CaAvailable(p, s.w, c, inp) && CaAt(p, Cur(s.w)).Some?
    requires Misleads(p, s.w, first, second)
    ensures Run(p, s, DropOnly(inp, first, second)) == State(DropSecret(s.w, CaKey(p.cluster)), Done(Failed))
  {
    var labels := DropOnly(inp, first, second);
    var x := CaAt(p, Read(s.w, first));
    var crt := PickCa(p, KubeconfigReply(p, s.w.svc, c.ncp.status.planeID).bytes, inp.pick);
    var s1, s2 := s.(k := FetchingCa(c, x)), s.(k := RecheckingCa(c, x, crt, inp.key));
    var s3 := s.(k := DroppingCa(c, crt, inp.key));
    var s4 := State(DropSecret(s.w, CaKey(p.cluster)), CreatingCa(c, crt, inp.key));
    MissedSteps(p, s.w, c, first, second, inp);
    DropStep(p, s.w, c, crt, inp.key, inp);
    FailedCreationStep(p, s4.w, c, crt, inp.key, inp);
    RequestNext(p, s, labels, 0, inp.(lag := first), s1);
    RequestNext(p, s1, labels, 1, inp, s2);
    RequestNext(p, s2, labels, 2, inp.(lag := second), s3);
    RequestNext(p, s3, labels, 3, inp, s4);
    RequestNext(p, s4, labels, 4, inp.(outcome := Fails), s4.(k := Done(Failed)));
    assert labels[0..] == labels;
  }

  /** The deletion, and then a reconcile whose secrets are read from the snapshot
      just before it, which still shows the key. */
  function ToBareCommit(inp: Input, lag: nat, first: nat, second: nat): seq<Label> {
    ToCa(inp, lag) + DropOnly(inp, first, second) + ToCa(inp, 1) + [Request(inp.(lag := 1))]
  }

  lemma StillDone(p: Params, w: World, c: Ctx)
    requires DoneButCa(p, w, c)
    ensures var w' := DropSecret(w, CaKey(p.cluster));
            DoneButCa(p, w', c) && SameKubeconfig(p, w', 1) && Read(w', 1) == Cur(w)
  {
    SecretKeysApart(p.cluster, p.cluster);
  }

  /** A settled world whose log holds what misleads. */
  ghost predicate Primed(p: Params, w: World, c: Ctx, inp: Input, lag: nat, first: nat, second: nat) {
    && DoneButCa(p, w, c) && Smooth(inp) && CaAvailable(p, w, c, inp) && HasKey(CaAt(p, Cur(w)))
    && SameKubeconfig(p, w, lag) && Misleads(p, w, first, second)
  }

  lemma PrimedDrops(p: Params, s: State, c: Ctx, inp: Input, lag: nat, first: nat, second: nat)
    requires Stopped(s.k) && Primed(p, s.w, c, inp, lag, first, second)
    ensures Run(p, s, ToCa(inp, lag) + DropOnly(inp, first, second)) == State(DropSecret(s.w, CaKey(p.cluster)), Done(Failed))
  {
    ReachesCa(p, s, c, inp, lag);
    Dropped(p, s.(k := CheckingCa(c)), c, inp, first, second);
    RunOn(p, s, ToCa(inp, lag), DropOnly(inp, first, second), s.(k := CheckingCa(c)));
  }

  lemma DroppedCommits(p: Params, w: World, c: Ctx, inp: Input)
    requires DoneButCa(p, w, c) && Smooth(inp) && HasKey(CaAt(p, Cur(w)))
    ensures var w' := DropSecret(w, CaKey(p.cluster));
            Run(p, State(w', Done(Failed)), ToCa(inp, 1) + [Request(inp.(lag := 1))]) == State(w', Committing(c))
  {
    var w' := DropSecret(w, CaKey(p.cluster));
    StillDone(p, w, c);
    ReachesCa(p, State(w', Done(Failed)), c, inp, 1);
    ShownKeyCommits(p, w', c, 1, inp);
    RunOn(p, State(w', Done(Failed)), ToCa(inp, 1), [Request(inp.(lag := 1))], State(w', CheckingCa(c)));
  }

  lemma BareCommitTail(inp: Input, lag: nat, first: nat, second: nat)
    ensures ToBareCommit(inp, lag, first, second)
         == (ToCa(inp, lag) + DropOnly(inp, first, second)) + (ToCa(inp, 1) + [Request(inp.(lag := 1))])
    ensures OwnActs(ToBareCommit(inp, lag, first, second))
  {
  }

  lemma PrimedCommitsBare(p: Params, s: State, c: Ctx, inp: Input, lag: nat, first: nat, second: nat)
    requires Stopped(s.k) && Primed(p, s.w, c, inp, lag, first, second)
    ensures BareCommitAt(p, Run(p, s, ToBareCommit(inp, lag, first, second)), inp)
  {
    var w' := DropSecret(s.w, CaKey(p.cluster));
    PrimedDrops(p, s, c, inp, lag, first, second);
    DroppedCommits(p, s.w, c, inp);
    BareCommitTail(inp, lag, first, second);
    RunOn(p, s, ToCa(inp, lag) + DropOnly(inp, first, second), ToCa(inp, 1) + [Request(inp.(lag := 1))], State(w', Done(Failed)));
    BareCommitAccepted(p, State(w', Committing(c)), c, inp);
  }

  // ---- From any past ----

  lemma PastKubeconfigStep(p: Params, w: World, k: Worker, inp: Input)
    requires PastKubeconfig(k)
    ensures var w' := Serve(p, w, RequestOf(p, k), inp).0;
            KubeconfigAt(p, Cur(w')) == KubeconfigAt(p, Cur(w))
  {
    SecretKeysApart(p.cluster, p.cluster);
  }

  lemma StaysPast(p: Params, k: Worker, r: Reply, inp: Input)
    requires PastKubeconfig(k)
    ensures PastKubeconfig(Resume(p, k, r, inp)) || Stopped(Resume(p, k, r, inp))
  {
  }

  lemma {:induction false} SettleKeepsKubeconfig(p: Params, w: World, k: Worker, inp: Input)
    requires (PastKubeconfig(k) || Stopped(k)) && inp.outcome.Success?
    ensures var w' := Settle(p, w, k, inp).0;
            KubeconfigAt(p, Cur(w')) == KubeconfigAt(p, Cur(w)) && w.log <= w'.log
    decreases Rank(k)
  {
    if !Stopped(k) {
      var (w1, k1) := Step(p, w, k, inp);
      PastKubeconfigStep(p, w, k, inp);
      StaysPast(p, k, Serve(p, w, RequestOf(p, k), inp).1, inp);
      StepAppends(p, w, k, inp);
      RankDrops(p, w, k, inp);
      SettleKeepsKubeconfig(p, w1, k1, inp);
    }
  }

  lemma {:induction false} SettleStops(p: Params, w: World, k: Worker, inp: Input)
    ensures Stopped(Settle(p, w, k, inp).1)
    decreases Rank(k)
  {
    if !Stopped(k) {
      RankDrops(p, w, k, inp);
      SettleStops(p, Step(p, w, k, inp).0, Step(p, w, k, inp).1, inp);
    }
  }

  lemma SettleIsRun(p: Params, w: World, k: Worker, inp: Input) returns (labels: seq<Label>)
    ensures Calmly(labels, inp)
    ensures Run(p, State(w, k), labels) == State(Settle(p, w, k, inp).0, Settle(p, w, k, inp).1)
  {
    var script := (i: nat) => inp;
    labels := ExecIsRun(p, w, k, script, 0);
    SettleIsExec(p, w, k, inp, script, 0);
  }

  lemma LookIsNear(p: Params, w: World, k: Worker, crt: Bytes)
    requires Coherent(p, w, k, crt) && k.CheckingCa?
    ensures Distance(p, w) == 0
  {
  }

  /** From a first look on, a calm reconcile converges. */
  lemma LookConverges(p: Params, w: World, k: Worker, crt: Bytes, inp: Input) returns (c: Ctx)
    requires Serviceable(p, w, crt) && Coherent(p, w, k, crt) && CapableAt(p, w, k) && k.CheckingCa?
    requires Calm(p, GoalOf(p, w, crt), inp)
    ensures var w' := Settle(p, w, k, inp).0;
            DoneButCa(p, w', c) && CaAvailable(p, w', c, inp) && HasKey(CaAt(p, Cur(w')))
  {
    var w' := Settle(p, w, k, inp).0;
    LookIsNear(p, w, k, crt);
    SettleHeads(p, w, k, crt, inp);
    SettleAdvances(p, w, k, crt, inp);
    ConvergedIsDone(p, w', crt);
    var o := Cur(w').obj.value;
    c := Ctx(o, o.status.planeID, w'.svc.planes[o.status.planeID].plane);
    CalmCaAvailable(p, w', crt, c, inp);
  }

  /** A calm run over a first look, which still shows the CA secret of the start,
      to a settled world. */
  ghost predicate Settles(p: Params, w: World, at: World, w': World, c: Ctx, inp: Input) {
    && w.log <= at.log <= w'.log
    && CaAt(p, Cur(at)) == CaAt(p, Cur(w)) && KubeconfigAt(p, Cur(w')) == KubeconfigAt(p, Cur(at))
    && DoneButCa(p, w', c) && CaAvailable(p, w', c, inp) && HasKey(CaAt(p, Cur(w'))) && Smooth(inp)
  }

  lemma SettlesOverLook(p: Params, s: State, crt: Bytes, inp: Input) returns (past: seq<Label>, at: World, c: Ctx)
    requires Stopped(s.k) && Serviceable(p, s.w, crt) && Capable(p, s.w) && Calm(p, GoalOf(p, s.w, crt), inp)
    ensures Calmly(past, inp) && Stopped(Run(p, s, past).k) && Settles(p, s.w, at, Run(p, s, past).w, c, inp)
  {
    var way, k;
    way, at, k := WayToFirstLook(p, s.w, s.k, crt, inp);
    c := LookConverges(p, at, k, crt, inp);
    SettleKeepsKubeconfig(p, at, k, inp);
    SettleStops(p, at, k, inp);
    var rest := SettleIsRun(p, at, k, inp);
    CalmlyAppend(way, rest, inp);
    RunOn(p, s, way, rest, State(at, k));
    past := way + rest;
  }

  lemma PastPrimes(p: Params, w: World, at: World, w': World, c: Ctx, inp: Input, i: nat, j: nat) returns (first: nat, second: nat)
    requires Settles(p, w, at, w', c, inp)
    requires i < |w.log| && !HasKey(CaAt(p, w.log[i]))
    requires j < |w.log| && CaAt(p, w.log[j]).Some? && CaAt(p, w.log[j]).value.kind != CLUSTER_SECRET
    ensures Primed(p, w', c, inp, 0, first, second)
  {
    first := LagOf(w', i);
    second := LagOf(w', j);
    assert w'.log[i] == w.log[i] && w'.log[j] == w.log[j];
  }

  lemma OtherTypeCommitsBare(p: Params, s: State, crt: Bytes, inp: Input, i: nat, j: nat) returns (labels: seq<Label>)
    requires Stopped(s.k) && Serviceable(p, s.w, crt) && Capable(p, s.w) && Calm(p, GoalOf(p, s.w, crt), inp)
    requires i < |s.w.log| && !HasKey(CaAt(p, s.w.log[i]))
    requires j < |s.w.log| && CaAt(p, s.w.log[j]).Some? && CaAt(p, s.w.log[j]).value.kind != CLUSTER_SECRET
    ensures OwnActs(labels) && BareCommitAt(p, Run(p, s, labels), inp)
  {
    var past, at, c := SettlesOverLook(p, s, crt, inp);
    var t := Run(p, s, past);
    var first, second := PastPrimes(p, s.w, at, t.w, c, inp, i, j);
    var tail := ToBareCommit(inp, 0, first, second);
    PrimedCommitsBare(p, t, c, inp, 0, first, second);
    BareCommitTail(inp, 0, first, second);
    OwnActsAppend(past, tail, inp);
    RunOn(p, s, past, tail, t);
    labels := past + tail;
  }

  lemma OwnActsAppend(past: seq<Label>, tail: seq<Label>, inp: Input)
    requires Calmly(past, inp) && OwnActs(tail)
    ensures OwnActs(past + tail)
  {
  }

  lemma OneMoreAct(past: seq<Label>, inp: Input, lag: nat)
    requires Calmly(past, inp)
    ensures OwnActs(past + [Request(inp.(lag := lag))])
  {
  }

  /** SoundPast is the exact condition under which ConsistentReadyCommit holds
      whatever is read: from every other past, if the object's plane is ready, the
      controller alone can commit readiness without a key in a CA secret. */
  lemma CommitWithoutCa(p: Params, s: State, crt: Bytes, inp: Input) returns (labels: seq<Label>)
    requires Stopped(s.k) && Serviceable(p, s.w, crt) && Capable(p, s.w) && Calm(p, GoalOf(p, s.w, crt), inp)
    requires !SoundPast(p, s.w.log)
    ensures OwnActs(labels) && BareCommitAt(p, Run(p, s, labels), inp)
  {
    if !KeyIsThere(p, s.w.log) {
      var i :| 0 <= i < |s.w.log| && HasKey(CaAt(p, s.w.log[i])) && !HasKey(CaAt(p, s.w.log[|s.w.log| - 1]));
      var past, lag := GoneKeyCommitsBare(p, s, crt, inp, i);
      OneMoreAct(past, inp, lag);
      labels := past + [Request(inp.(lag := lag))];
    } else {
      var i :| 0 <= i < |s.w.log| && !HasKey(CaAt(p, s.w.log[i]));
      var j :| 0 <= j < |s.w.log| && CaAt(p, s.w.log[j]).Some? && CaAt(p, s.w.log[j]).value.kind != CLUSTER_SECRET;
      labels := OtherTypeCommitsBare(p, s, crt, inp, i, j);
    }
  }

  lemma LookPrimes(p: Params, w: World, at: World, w': World, c: Ctx, inp: Input) returns (lag: nat)
    requires Settles(p, w, at, w', c, inp)
    requires CaAt(p, Cur(w)).Some? && CaAt(p, Cur(w)).value.kind != CLUSTER_SECRET && !HasKey(CaAt(p, Cur(w)))
    ensures Primed(p, w', c, inp, lag, lag, lag)
  {
    lag := LagOf(w', |at.log| - 1);
    assert Read(w', lag) == Cur(at);
  }

  /** The same with secrets read from one cache that only moves forward: fresh
      reads until the world has settled, then a reconcile from the snapshot of the
      first look, then one from the snapshot before the deletion. */
  lemma ForwardReadsCommitBare(p: Params, s: State, crt: Bytes, inp: Input) returns (past: seq<Label>, lag: nat)
    requires Stopped(s.k) && Serviceable(p, s.w, crt) && Capable(p, s.w) && Calm(p, GoalOf(p, s.w, crt), inp)
    requires CaAt(p, Cur(s.w)).Some? && CaAt(p, Cur(s.w)).value.kind != CLUSTER_SECRET && !HasKey(CaAt(p, Cur(s.w)))
    ensures Calmly(past, inp) && BareCommitAt(p, Run(p, s, past + ToBareCommit(inp, lag, lag, lag)), inp)
  {
    var at, c;
    past, at, c := SettlesOverLook(p, s, crt, inp);
    var t := Run(p, s, past);
    lag := LookPrimes(p, s.w, at, t.w, c, inp);
    PrimedCommitsBare(p, t, c, inp, lag, lag, lag);
    RunOn(p, s, past, ToBareCommit(inp, lag, lag, lag), t);
  }
}
