/** Where the things a reconcile writes come from: the plane was held by the
    service, kubeconfig and certificate were handed out by it, and an upgrade was
    called for, during the run. */
module Provenance {
  import opened Domain
  import opened Stores
  import opened Controller
  import opened Runs
  import opened Secrets
  import opened SecretContents

  /** From moment n on it has been one reconcile, without an end or a crash. */
  ghost predicate Unbroken(p: Params, s: State, labels: seq<Label>, n: nat) {
    forall i :: n <= i <= |labels| ==> !Stopped(Run(p, s, labels[..i]).k)
  }

  lemma UnbrokenNow(p: Params, s: State, labels: seq<Label>)
    requires labels != []
    requires !Stopped(Run(p, s, labels[..|labels| - 1]).k) && !Stopped(Run(p, s, labels).k)
    ensures Unbroken(p, s, labels, |labels| - 1)
  {
    assert labels[..|labels|] == labels;
  }

  lemma UnbrokenLonger(p: Params, s: State, labels: seq<Label>, n: nat)
    requires labels != [] && Unbroken(p, s, labels[..|labels| - 1], n) && !Stopped(Run(p, s, labels).k)
    ensures Unbroken(p, s, labels, n)
  {
    var before := labels[..|labels| - 1];
    forall i | n <= i <= |labels| ensures !Stopped(Run(p, s, labels[..i]).k) {
      if i < |labels| {
        assert before[..i] == labels[..i];
      } else {
        assert labels[..i] == labels;
      }
    }
  }

  // ---- The plane ----

  /** At moment n, when the reconcile asked for it, the service held this plane
      under this ID. */
  ghost predicate HeldAt(p: Params, s: State, labels: seq<Label>, n: nat, id: string, plane: Plane) {
    && n <= |labels| && Unbroken(p, s, labels, n)
    && var t := Run(p, s, labels[..n]);
       && t.k.GettingPlane? && t.k.id == id
       && id in t.w.svc.planes && t.w.svc.planes[id].plane == plane
  }

  ghost predicate WasHeld(p: Params, s: State, labels: seq<Label>, id: string, plane: Plane) {
    exists n :: HeldAt(p, s, labels, n, id, plane)
  }

  lemma HeldLonger(p: Params, s: State, labels: seq<Label>, id: string, plane: Plane)
    requires labels != [] && WasHeld(p, s, labels[..|labels| - 1], id, plane) && !Stopped(Run(p, s, labels).k)
    ensures WasHeld(p, s, labels, id, plane)
  {
    var before := labels[..|labels| - 1];
    var n: nat :| HeldAt(p, s, before, n, id, plane);
    UnbrokenLonger(p, s, labels, n);
    assert before[..n] == labels[..n];
    assert HeldAt(p, s, labels, n, id, plane);
  }

  /** A reconcile gets its plane from one reply and keeps it. */
  lemma ResumeKeepsPlane(p: Params, k: Worker, r: Reply, inp: Input)
    ensures var k' := Resume(p, k, r, inp);
            HasCtx(k') ==>
              || (HasCtx(k) && k'.ctx.id == k.ctx.id && k'.ctx.plane == k.ctx.plane)
              || (k.GettingPlane? && r.PlaneIs? && k'.ctx.id == k.id && k'.ctx.plane == r.plane)
  {
  }

  lemma StepKeepsPlane(p: Params, w: World, k: Worker, inp: Input)
    ensures var k' := Step(p, w, k, inp).1;
            HasCtx(k') ==>
              || (HasCtx(k) && k'.ctx.id == k.ctx.id && k'.ctx.plane == k.ctx.plane)
              || (k.GettingPlane? && k'.ctx.id == k.id && k.id in w.svc.planes && k'.ctx.plane == w.svc.planes[k.id].plane)
  {
    ResumeKeepsPlane(p, k, Serve(p, w, RequestOf(p, k), inp).1, inp);
    ResumeKeepsPlane(p, k, Unavailable, inp);
  }

  lemma ActKeepsPlane(p: Params, s: State, l: Label)
    ensures var k' := Apply(p, s, l).k;
            HasCtx(k') ==>
              || (HasCtx(s.k) && k'.ctx.id == s.k.ctx.id && k'.ctx.plane == s.k.ctx.plane)
              || (s.k.GettingPlane? && k'.ctx.id == s.k.id && s.k.id in s.w.svc.planes && k'.ctx.plane == s.w.svc.planes[s.k.id].plane)
  {
    if l.Request? {
      StepKeepsPlane(p, s.w, s.k, l.inp);
    }
  }

  lemma HeldNow(p: Params, s: State, labels: seq<Label>, t: State)
    requires labels != [] && Run(p, s, labels[..|labels| - 1]) == t
    requires t.k.GettingPlane? && t.k.id in t.w.svc.planes && !Stopped(Run(p, s, labels).k)
    ensures WasHeld(p, s, labels, t.k.id, t.w.svc.planes[t.k.id].plane)
  {
    UnbrokenNow(p, s, labels);
    assert HeldAt(p, s, labels, |labels| - 1, t.k.id, t.w.svc.planes[t.k.id].plane);
  }

  /** The plane a reconcile works with was held by the service when it asked. */
  lemma {:induction false} PlaneWasHeld(p: Params, s: State, labels: seq<Label>)
    requires s.k.Idle?
    ensures var k := Run(p, s, labels).k;
            HasCtx(k) ==> WasHeld(p, s, labels, k.ctx.id, k.ctx.plane)
  {
    if labels != [] {
      var before := labels[..|labels| - 1];
      var t, k := Run(p, s, before), Run(p, s, labels).k;
      PlaneWasHeld(p, s, before);
      ActKeepsPlane(p, t, labels[|labels| - 1]);
      if HasCtx(k) {
        if HasCtx(t.k) && k.ctx.id == t.k.ctx.id && k.ctx.plane == t.k.ctx.plane {
          HeldLonger(p, s, labels, k.ctx.id, k.ctx.plane);
        } else {
          HeldNow(p, s, labels, t);
        }
      }
    }
  }

  // ---- The kubeconfig ----

  /** At moment n of this reconcile, the service answered with this kubeconfig for
      the ID on record. */
  ghost predicate ServedAt(p: Params, s: State, labels: seq<Label>, n: nat, c: Ctx, kc: Bytes) {
    && n <= |labels| && Unbroken(p, s, labels, n)
    && var t := Run(p, s, labels[..n]);
       t.k == FetchingKubeconfig(c) && KubeconfigReply(p, t.w.svc, c.ncp.status.planeID) == KubeconfigIs(kc)
  }

  ghost predicate WasServed(p: Params, s: State, labels: seq<Label>, c: Ctx, kc: Bytes) {
    exists n :: ServedAt(p, s, labels, n, c, kc)
  }

  lemma ServedLonger(p: Params, s: State, labels: seq<Label>, c: Ctx, kc: Bytes)
    requires labels != [] && WasServed(p, s, labels[..|labels| - 1], c, kc) && !Stopped(Run(p, s, labels).k)
    ensures WasServed(p, s, labels, c, kc)
  {
    var before := labels[..|labels| - 1];
    var n: nat :| ServedAt(p, s, before, n, c, kc);
    UnbrokenLonger(p, s, labels, n);
    assert before[..n] == labels[..n];
    assert ServedAt(p, s, labels, n, c, kc);
  }

  predicate HoldsKubeconfig(k: Worker) {
    k.ReadingKubeconfigSecret? || WritesKubeconfig(k)
  }

  /** The kubeconfig secret holds exactly kc. */
  predicate StoresKubeconfig(p: Params, c: Snapshot, kc: Bytes) {
    KubeconfigAt(p, c).Some? && KubeconfigAt(p, c).value.data == map["value" := kc]
  }

  /** The kubeconfig of this reconcile, held or stored, if it has come so far. */
  ghost predicate Carries(p: Params, c: Snapshot, k: Worker, kc: Bytes) {
    (HoldsKubeconfig(k) && k.kc == kc) || (PastKubeconfig(k) && StoresKubeconfig(p, c, kc))
  }

  lemma ServeHeldKubeconfig(p: Params, w: World, k: Worker, inp: Input)
    requires HoldsKubeconfig(k)
    ensures var (w', r) := Serve(p, w, RequestOf(p, k), inp);
            var k' := Resume(p, k, r, inp);
            HoldsKubeconfig(k') || PastKubeconfig(k') ==> Carries(p, Cur(w'), k', k.kc) && k'.ctx == k.ctx
  {
  }

  lemma ServeStoredKubeconfig(p: Params, w: World, k: Worker, inp: Input)
    requires PastKubeconfig(k)
    ensures var (w', r) := Serve(p, w, RequestOf(p, k), inp);
            var k' := Resume(p, k, r, inp);
            && KubeconfigAt(p, Cur(w')) == KubeconfigAt(p, Cur(w))
            && (PastKubeconfig(k') || Stopped(k')) && (PastKubeconfig(k') ==> k'.ctx == k.ctx)
  {
    SecretKeysApart(p.cluster, p.cluster);
  }

  lemma ServeCarries(p: Params, w: World, k: Worker, inp: Input, kc: Bytes)
    requires Carries(p, Cur(w), k, kc)
    ensures var (w', r) := Serve(p, w, RequestOf(p, k), inp);
            var k' := Resume(p, k, r, inp);
            HoldsKubeconfig(k') || PastKubeconfig(k') ==> Carries(p, Cur(w'), k', kc) && k'.ctx == k.ctx
  {
    if HoldsKubeconfig(k) {
      ServeHeldKubeconfig(p, w, k, inp);
    } else {
      ServeStoredKubeconfig(p, w, k, inp);
    }
  }

  lemma UnansweredCarries(p: Params, c: Snapshot, k: Worker, inp: Input, kc: Bytes)
    requires Carries(p, c, k, kc)
    ensures var k' := Resume(p, k, Unavailable, inp);
            HoldsKubeconfig(k') || PastKubeconfig(k') ==> k.RecheckingCa? && Carries(p, c, k', kc) && k'.ctx == k.ctx
  {
  }

  lemma RecheckReads(p: Params, w: World, k: Worker, inp: Input)
    requires k.RecheckingCa?
    ensures Serve(p, w, RequestOf(p, k), inp).0 == w
  {
  }

  lemma StepCarries(p: Params, w: World, k: Worker, inp: Input, kc: Bytes)
    requires Carries(p, Cur(w), k, kc)
    ensures var (w', k') := Step(p, w, k, inp);
            HoldsKubeconfig(k') || PastKubeconfig(k') ==> Carries(p, Cur(w'), k', kc) && k'.ctx == k.ctx
  {
    ServeCarries(p, w, k, inp, kc);
    UnansweredCarries(p, Cur(w), k, inp, kc);
    if k.RecheckingCa? {
      RecheckReads(p, w, k, inp);
    }
  }

  lemma ActCarries(p: Params, s: State, l: Label, kc: Bytes)
    requires Carries(p, Cur(s.w), s.k, kc)
    requires l.SecretEdit? ==> l.key != KubeconfigKey(p.cluster) && l.key != CaKey(p.cluster)
    ensures var s' := Apply(p, s, l);
            HoldsKubeconfig(s'.k) || PastKubeconfig(s'.k) ==> Carries(p, Cur(s'.w), s'.k, kc) && s'.k.ctx == s.k.ctx
  {
    if l.Request? {
      StepCarries(p, s.w, s.k, l.inp, kc);
    } else {
      OthersUntouched(p, s, l);
    }
  }

  /** The kubeconfig comes from one fetch. */
  lemma ResumeFetches(p: Params, k: Worker, r: Reply, inp: Input)
    requires !HoldsKubeconfig(k) && !PastKubeconfig(k)
    ensures var k' := Resume(p, k, r, inp);
            HoldsKubeconfig(k') || PastKubeconfig(k') ==>
              k.FetchingKubeconfig? && r.KubeconfigIs? && HoldsKubeconfig(k') && k'.kc == r.bytes && k'.ctx == k.ctx
  {
  }

  lemma ActFetches(p: Params, s: State, l: Label)
    requires !HoldsKubeconfig(s.k) && !PastKubeconfig(s.k)
    ensures var k' := Apply(p, s, l).k;
            HoldsKubeconfig(k') || PastKubeconfig(k') ==>
              && s.k.FetchingKubeconfig? && HoldsKubeconfig(k') && k'.ctx == s.k.ctx
              && KubeconfigReply(p, s.w.svc, k'.ctx.ncp.status.planeID) == KubeconfigIs(k'.kc)
  {
    if l.Request? {
      ResumeFetches(p, s.k, Serve(p, s.w, RequestOf(p, s.k), l.inp).1, l.inp);
      ResumeFetches(p, s.k, Unavailable, l.inp);
    }
  }

  ghost predicate ServedAndCarried(p: Params, s: State, labels: seq<Label>, kc: Bytes) {
    var t := Run(p, s, labels);
    HasCtx(t.k) && Carries(p, Cur(t.w), t.k, kc) && WasServed(p, s, labels, t.k.ctx, kc)
  }

  lemma ServedNow(p: Params, s: State, labels: seq<Label>, t: State, kc: Bytes)
    requires labels != [] && Run(p, s, labels[..|labels| - 1]) == t && t.k.FetchingKubeconfig?
    requires !Stopped(Run(p, s, labels).k)
    requires KubeconfigReply(p, t.w.svc, t.k.ctx.ncp.status.planeID) == KubeconfigIs(kc)
    ensures WasServed(p, s, labels, t.k.ctx, kc)
  {
    UnbrokenNow(p, s, labels);
    assert ServedAt(p, s, labels, |labels| - 1, t.k.ctx, kc);
  }

  /** Once fetched, the kubeconfig a reconcile holds, and then stores, is what the
      service answered for the ID on record, in this reconcile. */
  lemma {:induction false} KubeconfigWasServed(p: Params, s: State, labels: seq<Label>) returns (kc: Bytes)
    requires s.k.Idle? && OnlyWriter(p, labels)
    ensures var k := Run(p, s, labels).k;
            HoldsKubeconfig(k) || PastKubeconfig(k) ==> ServedAndCarried(p, s, labels, kc)
  {
    kc := [];
    if labels != [] {
      var before, l := labels[..|labels| - 1], labels[|labels| - 1];
      assert l in labels;
      var t, t' := Run(p, s, before), Run(p, s, labels);
      kc := KubeconfigWasServed(p, s, before);
      if HoldsKubeconfig(t'.k) || PastKubeconfig(t'.k) {
        if HoldsKubeconfig(t.k) || PastKubeconfig(t.k) {
          ActCarries(p, t, l, kc);
          ServedLonger(p, s, labels, t.k.ctx, kc);
        } else {
          ActFetches(p, t, l);
          kc := t'.k.kc;
          ServedNow(p, s, labels, t, kc);
        }
      }
    }
  }

  /** At an accepted final write, the plane whose version and endpoint are
      reported was held by the service under the reported ID when this reconcile
      asked for it, and the stored kubeconfig is the one the service answered for
      the ID on record, in this reconcile. */
  lemma CommitProvenance(p: Params, s: State, labels: seq<Label>, inp: Input) returns (kc: Bytes)
    requires Init(s) && OnlyWriter(p, labels) && CommitAccepted(p, Run(p, s, labels), inp)
    ensures var t := Run(p, s, labels);
            && WasHeld(p, s, labels, t.k.ctx.id, t.k.ctx.plane)
            && WasServed(p, s, labels, t.k.ctx, kc)
            && StoresKubeconfig(p, Cur(Apply(p, t, Request(inp)).w), kc)
  {
    PlaneWasHeld(p, s, labels);
    kc := KubeconfigWasServed(p, s, labels);
    CommitKeepsSecrets(p, Run(p, s, labels), inp);
  }

  // ---- The upgrade ----

  /** A reconcile about to upgrade has seen a ready plane in another version. */
  ghost predicate UpgradeCalledFor(p: Params, s: State, labels: seq<Label>, ncp: ControlPlane, id: string) {
    exists plane :: WasHeld(p, s, labels, id, plane) && plane.status == "ready" && plane.version != ncp.spec.version
  }

  lemma ActUpgrades(p: Params, s: State, l: Label)
    ensures var k' := Apply(p, s, l).k;
            k'.Upgrading? ==>
              || s.k == k'
              || (&& s.k == GettingPlane(k'.ncp, k'.id) && k'.id in s.w.svc.planes
                  && s.w.svc.planes[k'.id].plane.status == "ready"
                  && s.w.svc.planes[k'.id].plane.version != k'.ncp.spec.version)
  {
  }

  /** No upgrade is asked for unless the plane, when this reconcile read it, was
      ready and in another version than its copy of the spec wants. */
  lemma {:induction false} UpgradesAreCalledFor(p: Params, s: State, labels: seq<Label>)
    requires s.k.Idle?
    ensures var k := Run(p, s, labels).k;
            k.Upgrading? ==> UpgradeCalledFor(p, s, labels, k.ncp, k.id)
  {
    if labels != [] {
      var before := labels[..|labels| - 1];
      var t, k := Run(p, s, before), Run(p, s, labels).k;
      UpgradesAreCalledFor(p, s, before);
      ActUpgrades(p, t, labels[|labels| - 1]);
      if k.Upgrading? {
        if t.k == k {
          var plane :| WasHeld(p, s, before, k.id, plane) && plane.status == "ready" && plane.version != k.ncp.spec.version;
          HeldLonger(p, s, labels, k.id, plane);
        } else {
          HeldNow(p, s, labels, t);
        }
      }
    }
  }

  // ---- The certificate ----

  predicate HoldsCa(k: Worker) {
    k.RecheckingCa? || k.CreatingCa? || k.DroppingCa? || k.UpdatingCa?
  }

  /** At moment n of this reconcile, the service answered with kc for the ID on
      record; crt is the certificate of the entry of kc that was picked, and key
      the key that was drawn. */
  ghost predicate CaServedAt(p: Params, s: State, labels: seq<Label>, n: nat, c: Ctx, kc: Bytes, crt: Bytes, key: Bytes) {
    && n < |labels| && labels[n].Request? && Unbroken(p, s, labels, n)
    && var t := Run(p, s, labels[..n]);
       && t.k.FetchingCa? && t.k.ctx == c
       && KubeconfigReply(p, t.w.svc, c.ncp.status.planeID) == KubeconfigIs(kc)
       && p.parse(kc).Some? && labels[n].inp.pick in p.parse(kc).value
       && crt == p.parse(kc).value[labels[n].inp.pick] && crt != []
       && key == labels[n].inp.key && key != []
  }

  lemma ResumeMints(p: Params, k: Worker, r: Reply, inp: Input)
    ensures var k' := Resume(p, k, r, inp);
            HoldsCa(k') ==>
              || (HoldsCa(k) && k'.ctx == k.ctx && k'.crt == k.crt && k'.key == k.key)
              || (&& k.FetchingCa? && k'.ctx == k.ctx && r.KubeconfigIs?
                  && p.parse(r.bytes).Some? && inp.pick in p.parse(r.bytes).value
                  && k'.crt == p.parse(r.bytes).value[inp.pick] && k'.crt != []
                  && k'.key == inp.key && k'.key != [])
  {
  }

  lemma StepMints(p: Params, w: World, k: Worker, inp: Input)
    ensures var k' := Step(p, w, k, inp).1;
            HoldsCa(k') ==>
              || (HoldsCa(k) && k'.ctx == k.ctx && k'.crt == k.crt && k'.key == k.key)
              || (&& k.FetchingCa? && k'.ctx == k.ctx
                  && var r := KubeconfigReply(p, w.svc, k.ctx.ncp.status.planeID);
                     && r.KubeconfigIs?
                     && p.parse(r.bytes).Some? && inp.pick in p.parse(r.bytes).value
                     && k'.crt == p.parse(r.bytes).value[inp.pick] && k'.crt != []
                     && k'.key == inp.key && k'.key != [])
  {
    ResumeMints(p, k, Serve(p, w, RequestOf(p, k), inp).1, inp);
    ResumeMints(p, k, Unavailable, inp);
  }

  /** The reply to the request at t, as StepMints describes it, is the witness. */
  lemma CaServedNow(p: Params, s: State, labels: seq<Label>, t: State) returns (kc: Bytes)
    requires labels != [] && Run(p, s, labels[..|labels| - 1]) == t && labels[|labels| - 1].Request?
    requires HoldsCa(Run(p, s, labels).k) && t.k.FetchingCa?
    ensures var k := Run(p, s, labels).k;
            CaServedAt(p, s, labels, |labels| - 1, k.ctx, kc, k.crt, k.key)
  {
    UnbrokenNow(p, s, labels);
    StepMints(p, t.w, t.k, labels[|labels| - 1].inp);
    kc := KubeconfigReply(p, t.w.svc, t.k.ctx.ncp.status.planeID).bytes;
  }

  lemma ActMints(p: Params, s: State, l: Label)
    ensures var k' := Apply(p, s, l).k;
            HoldsCa(k') ==>
              || (HoldsCa(s.k) && k'.ctx == s.k.ctx && k'.crt == s.k.crt && k'.key == s.k.key)
              || (s.k.FetchingCa? && l.Request?)
  {
    if l.Request? {
      StepMints(p, s.w, s.k, l.inp);
    }
  }

  lemma CaServedLonger(p: Params, s: State, labels: seq<Label>, n: nat, c: Ctx, kc: Bytes, crt: Bytes, key: Bytes)
    requires labels != [] && CaServedAt(p, s, labels[..|labels| - 1], n, c, kc, crt, key)
    requires !Stopped(Run(p, s, labels).k)
    ensures CaServedAt(p, s, labels, n, c, kc, crt, key)
  {
    UnbrokenLonger(p, s, labels, n);
    assert labels[..|labels| - 1][..n] == labels[..n];
  }

  /** The certificate and the key held at the end of labels, if any, were served. */
  ghost predicate CaAccounted(p: Params, s: State, labels: seq<Label>, n: nat, kc: Bytes) {
    var k := Run(p, s, labels).k;
    HoldsCa(k) ==> CaServedAt(p, s, labels, n, k.ctx, kc, k.crt, k.key)
  }

  lemma CaStillHeld(p: Params, s: State, labels: seq<Label>, n: nat, kc: Bytes)
    requires labels != [] && CaAccounted(p, s, labels[..|labels| - 1], n, kc)
    requires HoldsCa(Run(p, s, labels[..|labels| - 1]).k)
    ensures CaAccounted(p, s, labels, n, kc)
  {
    var t, k := Run(p, s, labels[..|labels| - 1]).k, Run(p, s, labels).k;
    if HoldsCa(k) {
      ActMints(p, Run(p, s, labels[..|labels| - 1]), labels[|labels| - 1]);
      CaServedLonger(p, s, labels, n, t.ctx, kc, t.crt, t.key);
    }
  }

  lemma CaFirstHeld(p: Params, s: State, labels: seq<Label>) returns (kc: Bytes)
    requires labels != [] && !HoldsCa(Run(p, s, labels[..|labels| - 1]).k)
    ensures CaAccounted(p, s, labels, |labels| - 1, kc)
  {
    kc := [];
    if HoldsCa(Run(p, s, labels).k) {
      ActMints(p, Run(p, s, labels[..|labels| - 1]), labels[|labels| - 1]);
      kc := CaServedNow(p, s, labels, Run(p, s, labels[..|labels| - 1]));
    }
  }

  /** The certificate and the key a reconcile prepares for the CA secret: an entry
      of the kubeconfig the service answered for the ID on record, in this
      reconcile, and the key drawn then. */
  lemma {:induction false} CaWasServed(p: Params, s: State, labels: seq<Label>) returns (n: nat, kc: Bytes)
    requires s.k.Idle?
    ensures CaAccounted(p, s, labels, n, kc)
  {
    n, kc := 0, [];
    if labels != [] {
      var before := labels[..|labels| - 1];
      n, kc := CaWasServed(p, s, before);
      if HoldsCa(Run(p, s, before).k) {
        CaStillHeld(p, s, labels, n, kc);
      } else {
        n := |before|;
        kc := CaFirstHeld(p, s, labels);
      }
    }
  }

  /** At moment n of this reconcile, its first look showed no CA secret, or one
      without a key. */
  ghost predicate LookedAt(p: Params, s: State, labels: seq<Label>, n: nat, c: Ctx) {
    && n < |labels| && labels[n].Request? && Unbroken(p, s, labels, n)
    && var t := Run(p, s, labels[..n]);
       && t.k == CheckingCa(c)
       && var shown := Read(t.w, labels[n].inp.lag).secrets;
          var place := SecretKey(p.cluster.namespace, p.cluster.name + "-ca");
          place in shown ==> "tls.key" !in shown[place].data || shown[place].data["tls.key"] == []
  }

  lemma ActLooks(p: Params, s: State, l: Label)
    ensures var k' := Apply(p, s, l).k;
            Minting(k') ==>
              || (Minting(s.k) && k'.ctx == s.k.ctx)
              || (&& s.k == CheckingCa(k'.ctx) && l.Request?
                  && var shown := Read(s.w, l.inp.lag).secrets;
                     var place := SecretKey(p.cluster.namespace, p.cluster.name + "-ca");
                     place in shown ==> "tls.key" !in shown[place].data || shown[place].data["tls.key"] == [])
  {
  }

  lemma LookedLonger(p: Params, s: State, labels: seq<Label>, n: nat, c: Ctx)
    requires labels != [] && LookedAt(p, s, labels[..|labels| - 1], n, c) && !Stopped(Run(p, s, labels).k)
    ensures LookedAt(p, s, labels, n, c)
  {
    UnbrokenLonger(p, s, labels, n);
    assert labels[..|labels| - 1][..n] == labels[..n];
  }

  /** No certificate is fetched unless this reconcile's first look was without a
      key. */
  lemma {:induction false} MintsOnlyKeyless(p: Params, s: State, labels: seq<Label>) returns (n: nat)
    requires s.k.Idle?
    ensures var k := Run(p, s, labels).k;
            Minting(k) ==> LookedAt(p, s, labels, n, k.ctx)
  {
    n := 0;
    if labels != [] {
      var before := labels[..|labels| - 1];
      var t, k := Run(p, s, before), Run(p, s, labels).k;
      n := MintsOnlyKeyless(p, s, before);
      ActLooks(p, t, labels[|labels| - 1]);
      if Minting(k) {
        if Minting(t.k) && k.ctx == t.k.ctx {
          LookedLonger(p, s, labels, n, k.ctx);
        } else {
          UnbrokenNow(p, s, labels);
          n := |before|;
        }
      }
    }
  }

  /** Whenever a request changes the CA secret of the cluster: the first look of
      this reconcile was without a key; the new certificate is an entry of the
      kubeconfig the service answered in it for the ID on record; and the new key
      is the one drawn with it. */
  lemma ChangedCaWasServed(p: Params, s: State, labels: seq<Label>, inp: Input) returns (look: nat, n: nat, kc: Bytes)
    requires Init(s)
    ensures var t := Run(p, s, labels);
            var place := SecretKey(p.cluster.namespace, p.cluster.name + "-ca");
            var o, x := Lookup(Cur(t.w).secrets, place), Lookup(Cur(Apply(p, t, Request(inp)).w).secrets, place);
            x != o ==>
              && HasCtx(t.k) && LookedAt(p, s, labels, look, t.k.ctx)
              && (x.Some? ==> CaServedAt(p, s, labels, n, t.k.ctx, kc, DataAt(x.value, "tls.crt"), DataAt(x.value, "tls.key")))
  {
    look := MintsOnlyKeyless(p, s, labels);
    n, kc := CaWasServed(p, s, labels);
    NothingElseLands(p, s, labels, inp, SecretKey(p.cluster.namespace, p.cluster.name + "-ca"));
    SecretKeysApart(p.cluster, p.cluster);
  }
}
