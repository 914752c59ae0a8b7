/** Deletion: one undisturbed reconcile finishes it, also after a crash between
    deleting the plane and removing the finalizer; unless the client hides the
    service's 404. */
module Deletion {
  import opened Domain
  import opened Stores
  import opened Controller
  import opened Runs
  import opened Safety
  import opened Writes
  import opened Greenfield
  import opened Settling

  /** What reconcileDelete needs of the world to get through. */
  predicate Deletable(p: Params, w: World) {
    && Cur(w).obj.Some?
    && var id := Cur(w).obj.value.status.planeID;
       id == "" || id in w.svc.planes || p.errors.notFoundTyped
  }

  lemma ReadToDelete(p: Params, w: World, o: ControlPlane, inp: Input)
    requires Cur(w).obj == Some(o) && o.deleting && o.finalizer && Smooth(inp)
    ensures Settle(p, w, Reading, inp) == Settle(p, w, EnterDelete(o), inp)
  {
    assert Step(p, w, Reading, inp) == (w, CheckingOwner(o));
    assert Step(p, w, CheckingOwner(o), inp) == (w, Authenticating(o));
    assert Step(p, w, Authenticating(o), inp) == (w, EnterDelete(o));
  }

  lemma DeletePlaneStep(p: Params, w: World, o: ControlPlane, inp: Input)
    requires Smooth(inp)
    ensures var id := o.status.planeID;
            var (w', k') := Step(p, w, DeletingPlane(o), inp);
            && w'.log == w.log && w'.rev == w.rev && id !in w'.svc.planes
            && k' == if id in w.svc.planes || p.errors.notFoundTyped then RemovingFinalizer(o) else Done(Failed)
  {
  }

  lemma RemoveFinalizerStep(p: Params, w: World, o: ControlPlane, inp: Input)
    requires Cur(w).obj == Some(o) && o.deleting && o.finalizer && Smooth(inp)
    ensures var (w', k') := Step(p, w, RemovingFinalizer(o), inp);
            && k' == Done(Wrote) && w'.svc == w.svc && !HasFinalizer(Cur(w'))
            && (Cur(w').obj.None? <==> !o.otherFinalizers)
  {
  }

  /** One undisturbed reconcile of an object being deleted: the finalizer goes,
      and with it the recorded plane, exactly when nothing is recorded, the
      plane still exists, or the client reports the missing plane as a
      NotFoundError. */
  lemma OneReconcileDeletes(p: Params, w: World, inp: Input)
    requires Cur(w).obj.Some? && Cur(w).obj.value.deleting && HasFinalizer(Cur(w)) && Smooth(inp)
    ensures var w' := Settle(p, w, Reading, inp).0;
            && (!HasFinalizer(Cur(w')) <==> Deletable(p, w))
            && (Cur(w).obj.value.status.planeID != "" ==> Cur(w).obj.value.status.planeID !in w'.svc.planes)
            && (Deletable(p, w) ==> (Cur(w').obj.None? <==> !Cur(w).obj.value.otherFinalizers))
  {
    var o := Cur(w).obj.value;
    ReadToDelete(p, w, o, inp);
    if o.status.planeID == "" {
      RemoveFinalizerStep(p, w, o, inp);
      assert EnterDelete(o) == RemovingFinalizer(o);
      assert Settle(p, w, RemovingFinalizer(o), inp) == Step(p, w, RemovingFinalizer(o), inp);
    } else {
      DeletePlaneStep(p, w, o, inp);
      var (w1, k1) := Step(p, w, DeletingPlane(o), inp);
      assert Settle(p, w, DeletingPlane(o), inp) == Settle(p, w1, k1, inp);
      if k1.RemovingFinalizer? {
        RemoveFinalizerStep(p, w1, o, inp);
        assert Settle(p, w1, k1, inp) == Step(p, w1, k1, inp);
      }
    }
  }

  // ---- A deletion whose reply was lost ----

  /** The recorded plane is gone, the finalizer is not. */
  ghost predicate Orphaned(p: Params, s: State) {
    && GreenInv(p, s)
    && HasFinalizer(Cur(s.w))
    && IdAt(Cur(s.w)) != "" && Own(p, s.w.svc) != Some(IdAt(Cur(s.w)))
    && (s.k.RemovingFinalizer? ==> s.k.ncp.status.planeID == "")
  }

  /** In an orphaned world every object write keeps finalizer and plane ID. */
  lemma OrphanedWrites(p: Params, w: World, k: Worker, inp: Input)
    requires Orphaned(p, State(w, k))
    ensures var w' := Serve(p, w, RequestOf(p, k), inp).0;
            HasFinalizer(Cur(w')) && IdAt(Cur(w')) == IdAt(Cur(w))
  {
    if Accepted(p, w, k) {
      WriteIsExact(p, w, k, inp);
      assert w.log[|w.log| - 1].obj.value.spec.planeID == "";
    } else {
      OtherRequestsKeepObject(p, w, k, inp);
    }
  }

  lemma ServeOwn(p: Params, w: World, c: Call, inp: Input)
    ensures var own := Own(p, Serve(p, w, c, inp).0.svc);
            || own == Own(p, w.svc) || own.None?
            || (w.svc.next.Some? && own == Some(w.svc.next.value.id))
  {
  }

  /** The lost plane never comes back under its ID, not even when a stale
      reconcile creates another one. */
  lemma OrphanedOwn(p: Params, w: World, k: Worker, inp: Input)
    requires Orphaned(p, State(w, k))
    ensures Own(p, Serve(p, w, RequestOf(p, k), inp).0.svc) != Some(IdAt(Cur(w)))
  {
    assert IdAt(w.log[|w.log| - 1]) in w.svc.issued;
    ServeOwn(p, w, RequestOf(p, k), inp);
  }

  lemma OrphanedReply(p: Params, w: World, k: Worker, r: Reply, inp: Input)
    requires k.DeletingPlane? ==> !r.Ack? && !r.Absent?
    ensures var k' := Resume(p, k, r, inp);
            k'.RemovingFinalizer? ==> k'.ncp.status.planeID == ""
  {
  }

  lemma PlaneIsMissing(p: Params, w: World, ncp: ControlPlane)
    requires LogOK(w) && ServiceOK(w.svc) && GreenWorld(p, w) && Seen(w.log, ncp) && ncp.status.planeID != ""
    requires IdAt(Cur(w)) != "" && Own(p, w.svc) != Some(IdAt(Cur(w)))
    ensures ncp.status.planeID !in w.svc.planes
  {
    CopyHistory(p, w, ncp);
    RecordedHere(w);
    RecordedOnce(p, w, ncp.status.planeID, IdAt(Cur(w)));
    OwnPlane(p, w.svc, ncp.status.planeID);
  }

  lemma DeleteMisses(p: Params, w: World, k: Worker, inp: Input)
    requires Orphaned(p, State(w, k)) && k.DeletingPlane? && !p.errors.notFoundTyped
    ensures var r := Serve(p, w, RequestOf(p, k), inp).1; !r.Ack? && !r.Absent?
  {
    PlaneIsMissing(p, w, k.ncp);
  }

  lemma RecordedHere(w: World)
    requires IdAt(Cur(w)) != ""
    ensures Recorded(w.log, IdAt(Cur(w)))
  {
    assert IdAt(w.log[|w.log| - 1]) == IdAt(Cur(w));
  }

  lemma RepliesKeepOrphaned(p: Params, s: State, inp: Input)
    requires Orphaned(p, s) && !p.errors.notFoundTyped
    ensures var k' := Resume(p, s.k, Serve(p, s.w, RequestOf(p, s.k), inp).1, inp);
            k'.RemovingFinalizer? ==> k'.ncp.status.planeID == ""
  {
    if s.k.DeletingPlane? {
      DeleteMisses(p, s.w, s.k, inp);
    }
    OrphanedReply(p, s.w, s.k, Serve(p, s.w, RequestOf(p, s.k), inp).1, inp);
  }

  lemma OrphanedNext(p: Params, s: State, w': World, k': Worker)
    requires Orphaned(p, s) && GreenInv(p, State(w', k'))
    requires HasFinalizer(Cur(w')) && IdAt(Cur(w')) == IdAt(Cur(s.w)) && Own(p, w'.svc) != Some(IdAt(Cur(s.w)))
    requires k'.RemovingFinalizer? ==> k'.ncp.status.planeID == ""
    ensures Orphaned(p, State(w', k'))
  {
  }

  lemma RequestKeepsOrphaned(p: Params, s: State, inp: Input)
    requires Orphaned(p, s) && !p.errors.notFoundTyped
    ensures Orphaned(p, Apply(p, s, Request(inp)))
  {
    var (w', k') := Step(p, s.w, s.k, inp);
    RequestKeepsGreen(p, s, inp);
    StepOrphaned(p, s, inp);
    OrphanedNext(p, s, w', k');
  }

  lemma StepOrphaned(p: Params, s: State, inp: Input)
    requires Orphaned(p, s) && !p.errors.notFoundTyped
    ensures var (w', k') := Step(p, s.w, s.k, inp);
            && HasFinalizer(Cur(w')) && IdAt(Cur(w')) == IdAt(Cur(s.w)) && Own(p, w'.svc) != Some(IdAt(Cur(s.w)))
            && (k'.RemovingFinalizer? ==> k'.ncp.status.planeID == "")
  {
    OrphanedWrites(p, s.w, s.k, inp);
    OrphanedOwn(p, s.w, s.k, inp);
    RepliesKeepOrphaned(p, s, inp);
    OrphanedReply(p, s.w, s.k, Unavailable, inp);
  }

  lemma UserKeepsOrphaned(p: Params, s: State, l: Label)
    requires Orphaned(p, s) && ByUser(l)
    ensures var s' := Apply(p, s, l);
            s'.k == s.k && s'.w.svc == s.w.svc && HasFinalizer(Cur(s'.w)) && IdAt(Cur(s'.w)) == IdAt(Cur(s.w))
  {
    UserStep(p, s, l);
  }

  lemma QuietKeepsOrphaned(p: Params, s: State, s': State)
    requires Orphaned(p, s) && Quiet(p, s, s') && GreenInv(p, s')
    ensures Orphaned(p, s')
  {
    assert Cur(s'.w).obj == Cur(s.w).obj;
  }

  lemma OthersKeepOrphaned(p: Params, s: State, l: Label)
    requires Orphaned(p, s) && !l.Request? && (SetsSpec(l) ==> l.spec.planeID == "")
    ensures Orphaned(p, Apply(p, s, l))
  {
    ApplyKeepsGreen(p, s, l);
    if ByUser(l) {
      UserKeepsOrphaned(p, s, l);
    } else if !l.CreateObject? {
      OthersQuiet(p, s, l);
      QuietKeepsOrphaned(p, s, Apply(p, s, l));
    }
  }

  /** Without a typed 404 the finalizer of such an object is never removed, in
      no greenfield continuation whatever. */
  lemma {:induction false} FinalizerStuckForever(p: Params, s: State, labels: seq<Label>)
    requires Orphaned(p, s) && !p.errors.notFoundTyped && GreenRun(labels)
    ensures Orphaned(p, Run(p, s, labels))
    ensures HasFinalizer(Cur(Run(p, s, labels).w))
  {
    if labels != [] {
      var before, l := labels[..|labels| - 1], labels[|labels| - 1];
      assert l in labels;
      FinalizerStuckForever(p, s, before);
      var t := Run(p, s, before);
      if l.Request? {
        RequestKeepsOrphaned(p, t, l.inp);
      } else {
        OthersKeepOrphaned(p, t, l);
      }
    }
  }

  /** The state is entered whenever the deletion of the plane takes effect and
      its reply is lost. */
  lemma LostDeleteReplyOrphans(p: Params, s: State, inp: Input)
    requires GreenInv(p, s) && s.k.DeletingPlane? && HasFinalizer(Cur(s.w))
    requires IdAt(Cur(s.w)) == s.k.ncp.status.planeID && inp.outcome == ReplyLost
    ensures Orphaned(p, Apply(p, s, Request(inp)))
  {
    RequestKeepsGreen(p, s, inp);
    LostDeleteReplyShape(p, s, inp);
    ServeGreenReply(p, s.w, s.k, inp.(outcome := Success));
    CopyHistory(p, s.w, s.k.ncp);
    OwnPlane(p, s.w.svc, s.k.ncp.status.planeID);
  }

  lemma LostDeleteReplyShape(p: Params, s: State, inp: Input)
    requires s.k.DeletingPlane? && inp.outcome == ReplyLost
    ensures var s' := Apply(p, s, Request(inp));
            && s'.k == Done(Failed) && s'.w.log == s.w.log
            && s'.w.svc == Serve(p, s.w, RequestOf(p, s.k), inp).0.svc
            && s.k.ncp.status.planeID !in s'.w.svc.planes
  {
  }
}
