/** What looks at an outdated CA secret do to the current one, exactly. */
module StaleReads {
  import opened Domain
  import opened Stores
  import opened Controller
  import opened Runs
  import opened Secrets
  import opened Convergence
  import opened Settling

  // ---- The first look at the CA secret ----

  lemma SettleOn(p: Params, w: World, k: Worker, inp: Input, w': World, k': Worker)
    requires !Stopped(k) && Step(p, w, k, inp) == (w', k')
    ensures Settle(p, w, k, inp) == Settle(p, w', k', inp)
  {
    RankDrops(p, w, k, inp);
  }

  lemma SettledAlready(p: Params, w: World, k: Worker, inp: Input)
    requires Stopped(k)
    ensures Settle(p, w, k, inp) == (w, k)
  {
  }

  lemma CommitStep(p: Params, w: World, c: Ctx, inp: Input)
    requires inp.outcome.Success?
    ensures var (w', k') := Step(p, w, Committing(c), inp);
            Cur(w').secrets == Cur(w).secrets && k'.Done?
  {
  }

  lemma CommitLeavesSecrets(p: Params, w: World, c: Ctx, inp: Input)
    requires inp.outcome.Success?
    ensures Cur(Settle(p, w, Committing(c), inp).0).secrets == Cur(w).secrets
  {
    var (w1, k1) := Step(p, w, Committing(c), inp);
    CommitStep(p, w, c, inp);
    SettleOn(p, w, Committing(c), inp, w1, k1);
    SettledAlready(p, w1, k1, inp);
  }

  lemma CreationStep(p: Params, w: World, c: Ctx, crt: Bytes, key: Bytes, inp: Input)
    requires inp.outcome.Success?
    ensures Step(p, w, CreatingCa(c, crt, key), inp)
         == if CaAt(p, Cur(w)).Some? then (w, Done(Failed))
            else (SetSecret(w, CaKey(p.cluster), CaSecret(p, crt, key)), Committing(c))
  {
  }

  lemma CreationTail(p: Params, w: World, c: Ctx, crt: Bytes, key: Bytes, inp: Input)
    requires inp.outcome.Success?
    ensures var ca := CaAt(p, Cur(Settle(p, w, CreatingCa(c, crt, key), inp).0));
            if CaAt(p, Cur(w)).Some? then ca == CaAt(p, Cur(w))
            else ca == Some(CaSecret(p, crt, key).(rv := w.rev + 1))
  {
    var (w1, k1) := Step(p, w, CreatingCa(c, crt, key), inp);
    CreationStep(p, w, c, crt, key, inp);
    SettleOn(p, w, CreatingCa(c, crt, key), inp, w1, k1);
    if CaAt(p, Cur(w)).Some? {
      SettledAlready(p, w1, k1, inp);
    } else {
      CommitLeavesSecrets(p, w1, c, inp);
    }
  }

  lemma DropStep(p: Params, w: World, c: Ctx, crt: Bytes, key: Bytes, inp: Input)
    requires inp.outcome.Success? && CaAt(p, Cur(w)).Some?
    ensures Step(p, w, DroppingCa(c, crt, key), inp) == (DropSecret(w, CaKey(p.cluster)), CreatingCa(c, crt, key))
  {
  }

  lemma DropTail(p: Params, w: World, c: Ctx, crt: Bytes, key: Bytes, inp: Input)
    requires inp.outcome.Success? && CaAt(p, Cur(w)).Some?
    ensures CaAt(p, Cur(Settle(p, w, DroppingCa(c, crt, key), inp).0)) == Some(CaSecret(p, crt, key).(rv := w.rev + 2))
  {
    var w1 := DropSecret(w, CaKey(p.cluster));
    DropStep(p, w, c, crt, key, inp);
    SettleOn(p, w, DroppingCa(c, crt, key), inp, w1, CreatingCa(c, crt, key));
    CreationTail(p, w1, c, crt, key, inp);
  }

  lemma UpdateStep(p: Params, w: World, c: Ctx, crt: Bytes, key: Bytes, prior: Secret, inp: Input)
    requires inp.outcome.Success? && CaAt(p, Cur(w)).Some?
    ensures var (w', k') := Step(p, w, UpdatingCa(c, crt, key, prior), inp);
            var was := CaAt(p, Cur(w)).value;
            if was.rv == prior.rv && was.kind == prior.kind
            then k' == Committing(c) && CaAt(p, Cur(w')).Some? && CaAt(p, Cur(w')).value.data == CaSecret(p, crt, key).data
            else (w', k') == (w, Done(Failed))
  {
  }

  lemma UpdateTail(p: Params, w: World, c: Ctx, crt: Bytes, key: Bytes, prior: Secret, inp: Input)
    requires inp.outcome.Success? && CaAt(p, Cur(w)).Some?
    ensures var was, ca := CaAt(p, Cur(w)).value, CaAt(p, Cur(Settle(p, w, UpdatingCa(c, crt, key, prior), inp).0));
            if was.rv == prior.rv && was.kind == prior.kind
            then ca.Some? && ca.value.data == CaSecret(p, crt, key).data
            else ca == Some(was)
  {
    var (w1, k1) := Step(p, w, UpdatingCa(c, crt, key, prior), inp);
    UpdateStep(p, w, c, crt, key, prior, inp);
    SettleOn(p, w, UpdatingCa(c, crt, key, prior), inp, w1, k1);
    if k1.Committing? {
      CommitLeavesSecrets(p, w1, c, inp);
    } else {
      SettledAlready(p, w1, k1, inp);
    }
  }

  /** The rest of an undisturbed reconcile, from the first look at the CA secret
      on. The two looks may be outdated. */
  function AfterLooks(p: Params, w: World, c: Ctx, first: nat, second: nat, inp: Input): World {
    var (w1, k1) := Step(p, w, CheckingCa(c), inp.(lag := first));
    var (w2, k2) := Step(p, w1, k1, inp);
    var (w3, k3) := Step(p, w2, k2, inp.(lag := second));
    Settle(p, w3, k3, inp).0
  }

  /** The kubeconfig can be fetched, and the entry picked has a certificate. */
  predicate CaAvailable(p: Params, w: World, c: Ctx, inp: Input) {
    var r := KubeconfigReply(p, w.svc, c.ncp.status.planeID);
    r.KubeconfigIs? && PickCa(p, r.bytes, inp.pick) != []
  }

  lemma MissedLook(p: Params, w: World, c: Ctx, first: nat, second: nat, inp: Input)
    requires inp.outcome.Success? && inp.key != [] && CaAvailable(p, w, c, inp)
    requires !HasKey(CaAt(p, Read(w, first)))
    ensures var crt := PickCa(p, KubeconfigReply(p, w.svc, c.ncp.status.planeID).bytes, inp.pick);
            var look := CaAt(p, Read(w, second));
            AfterLooks(p, w, c, first, second, inp) ==
              Settle(p, w, if look.None? then CreatingCa(c, crt, inp.key)
                           else if look.value.kind != CLUSTER_SECRET then DroppingCa(c, crt, inp.key)
                           else UpdatingCa(c, crt, inp.key, look.value), inp).0
  {
    var crt := PickCa(p, KubeconfigReply(p, w.svc, c.ncp.status.planeID).bytes, inp.pick);
    var seen := CaAt(p, Read(w, first));
    assert Step(p, w, CheckingCa(c), inp.(lag := first)) == (w, FetchingCa(c, seen));
    assert Step(p, w, FetchingCa(c, seen), inp) == (w, RecheckingCa(c, seen, crt, inp.key));
  }

  lemma HitLook(p: Params, w: World, c: Ctx, first: nat, second: nat, inp: Input)
    requires inp.outcome.Success? && HasKey(CaAt(p, Read(w, first)))
    ensures Cur(AfterLooks(p, w, c, first, second, inp)).secrets == Cur(w).secrets
  {
    assert Step(p, w, CheckingCa(c), inp.(lag := first)) == (w, Committing(c));
    var (w2, k2) := Step(p, w, Committing(c), inp);
    assert k2.Done?;
    assert Step(p, w2, k2, inp.(lag := second)) == (w2, k2);
  }

  /** Exactly when a CA secret that has a key is changed: the first look misses
      the key, and the second shows either a secret of the wrong type, which is
      dropped whatever has replaced it, or the current one, which is refilled. */
  lemma LooksDecide(p: Params, w: World, c: Ctx, first: nat, second: nat, inp: Input)
    requires HasKey(CaAt(p, Cur(w))) && KeyHistory(w, CaKey(p.cluster))
    requires inp.outcome.Success? && inp.key != [] && CaAvailable(p, w, c, inp)
    requires inp.key != DataAt(CaAt(p, Cur(w)).value, "tls.key")
    ensures var look := CaAt(p, Read(w, second));
            CaAt(p, Cur(AfterLooks(p, w, c, first, second, inp))) != CaAt(p, Cur(w)) <==>
              && !HasKey(CaAt(p, Read(w, first)))
              && look.Some? && (look.value.kind != CLUSTER_SECRET || look == CaAt(p, Cur(w)))
  {
    if HasKey(CaAt(p, Read(w, first))) {
      HitLook(p, w, c, first, second, inp);
    } else {
      var crt := PickCa(p, KubeconfigReply(p, w.svc, c.ncp.status.planeID).bytes, inp.pick);
      var look := CaAt(p, Read(w, second));
      MissedLook(p, w, c, first, second, inp);
      if look.None? {
        CreationTail(p, w, c, crt, inp.key, inp);
      } else if look.value.kind != CLUSTER_SECRET {
        DropTail(p, w, c, crt, inp.key, inp);
      } else {
        UpdateTail(p, w, c, crt, inp.key, look.value, inp);
        LookIsCurrent(p, w, second);
      }
    }
  }

  lemma LookIsCurrent(p: Params, w: World, lag: nat)
    requires KeyHistory(w, CaKey(p.cluster)) && CaAt(p, Read(w, lag)).Some? && CaAt(p, Cur(w)).Some?
    ensures CaAt(p, Read(w, lag)).value.rv == CaAt(p, Cur(w)).value.rv <==> CaAt(p, Read(w, lag)) == CaAt(p, Cur(w))
  {
    ReadInLog(w, lag);
    var x := CaAt(p, Read(w, lag)).value;
    assert SeenSecret(w.log, CaKey(p.cluster), x);
    if x.rv == CaAt(p, Cur(w)).value.rv {
      SecretIsCurrent(w, CaKey(p.cluster), x);
    }
  }

  /** With a current second look, as after ordinary cache lag, the first look
      alone decides: the converse of CaSecretStable at its guard. */
  lemma FirstLookDecides(p: Params, w: World, c: Ctx, first: nat, inp: Input)
    requires HasKey(CaAt(p, Cur(w))) && KeyHistory(w, CaKey(p.cluster))
    requires inp.outcome.Success? && inp.key != [] && CaAvailable(p, w, c, inp)
    requires inp.key != DataAt(CaAt(p, Cur(w)).value, "tls.key")
    ensures CaAt(p, Cur(AfterLooks(p, w, c, first, 0, inp))) == CaAt(p, Cur(w)) <==>
              LooksWell(p, w, CheckingCa(c), inp.(lag := first))
  {
    LooksDecide(p, w, c, first, 0, inp);
  }

  // ---- A reconcile of a settled world ----

  /** All is done but for the CA secret; c is what a reconcile finds. */
  ghost predicate DoneButCa(p: Params, w: World, c: Ctx) {
    && AtCtx(w, c) && c.ncp.finalizer && !c.ncp.deleting
    && c.ncp.status == Status(true, true, c.id, c.ncp.spec.version)
    && c.plane.status == READY && c.plane.version == c.ncp.spec.version
    && c.ncp.spec.endpoint == Desired(c.plane)
    && KubeconfigAt(p, Cur(w)).Some?
    && Refilled(KubeconfigAt(p, Cur(w)).value, KubeconfigSecret(p, KcOf(p, w, c.id))) == KubeconfigAt(p, Cur(w)).value
  }

  lemma ConvergedIsDone(p: Params, w: World, crt: Bytes)
    requires Serviceable(p, w, crt) && Converged(p, w, crt)
    ensures Cur(w).obj.Some? && Cur(w).obj.value.status.planeID in w.svc.planes
    ensures var o := Cur(w).obj.value;
            var id := o.status.planeID;
            DoneButCa(p, w, Ctx(o, id, w.svc.planes[id].plane))
  {
    ServiceableBasics(p, w, crt);
    ConvergedFacts(p, w, crt);
    var id := Cur(w).obj.value.status.planeID;
    RefillIsIdle(p, KubeconfigAt(p, Cur(w)).value, KcOf(p, w, id));
  }

  lemma CalmCaAvailable(p: Params, w: World, crt: Bytes, c: Ctx, inp: Input)
    requires Serviceable(p, w, crt) && DoneButCa(p, w, c) && Calm(p, GoalOf(p, w, crt), inp)
    ensures CaAvailable(p, w, c, inp)
  {
    ServiceableBasics(p, w, crt);
    CalmPick(p, w, c.id, crt, inp);
  }

  /** Only what the controller does. */
  ghost predicate OwnActs(labels: seq<Label>) {
    forall l :: l in labels ==> l.Start? || l.Crash? || l.Request?
  }
}
