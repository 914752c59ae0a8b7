/** Where recovery depends on how the client reports errors. The adopt path
    needs a typed 409 and the delete path a typed 404; the HTTP client produces
    neither, so a lost reply at either point is final. */
module Stranding {
  import opened Domain
  import opened Stores
  import opened Controller
  import opened Runs
  import opened Safety
  import opened Greenfield
  import opened Convergence
  import opened Settling

  // ---- A creation whose reply was lost ----

  ghost predicate NothingReported(log: Log) {
    forall i :: 0 <= i < |log| && log[i].obj.Some? ==> log[i].obj.value.status == EMPTY_STATUS
  }

  /** The plane exists, nothing is on record, and no reconcile knows of it. */
  ghost predicate Stranded(p: Params, s: State) {
    && GreenInv(p, s)
    && Own(p, s.w.svc).Some?
    && NothingReported(s.w.log)
    && ClaimsNothing(s.k)
  }

  lemma LostCreateReplyShape(p: Params, s: State, inp: Input)
    requires s.k.CreatingPlane? && s.w.svc.next.Some? && inp.outcome == ReplyLost
    ensures var s' := Apply(p, s, Request(inp));
            s'.k == Done(Failed) && s'.w.log == s.w.log && Own(p, s'.w.svc).Some?
  {
  }

  /** A creation that takes effect while its reply is lost strands its plane. */
  lemma LostCreateReplyStrands(p: Params, s: State, inp: Input)
    requires GreenInv(p, s) && s.k.CreatingPlane? && NothingReported(s.w.log)
    requires s.w.svc.next.Some? && inp.outcome == ReplyLost
    ensures Stranded(p, Apply(p, s, Request(inp)))
  {
    RequestKeepsGreen(p, s, inp);
    LostCreateReplyShape(p, s, inp);
  }

  lemma StrandedCopy(s: State)
    requires Inv(s) && NothingReported(s.w.log) && Copy(s.k).Some?
    ensures Copy(s.k).value.status == EMPTY_STATUS
  {
    var i :| 0 <= i < |s.w.log| && s.w.log[i].obj == Copy(s.k);
  }

  lemma ResumeStranded(p: Params, k: Worker, r: Reply, inp: Input)
    requires ClaimsNothing(k)
    requires k.CreatingPlane? ==> !r.PlaneIs? && !r.Conflict?
    requires Copy(k).Some? ==> Copy(k).value.status == EMPTY_STATUS && Copy(k).value.spec.planeID == ""
    ensures ClaimsNothing(Resume(p, k, r, inp))
  {
  }

  lemma CreateRefused(p: Params, w: World, k: Worker, inp: Input)
    requires k.CreatingPlane? && Own(p, w.svc).Some? && !p.errors.conflictTyped
    ensures var r := Serve(p, w, RequestOf(p, k), inp).1; !r.PlaneIs? && !r.Conflict?
  {
  }

  /** No request of a stranded reconcile writes status or touches the plane. */
  lemma ServeStranded(p: Params, w: World, k: Worker, inp: Input)
    requires Inv(State(w, k)) && ClaimsNothing(k) && NothingReported(w.log) && Own(p, w.svc).Some?
    ensures var w' := Serve(p, w, RequestOf(p, k), inp).0;
            && NothingReported(w'.log)
            && Own(p, w'.svc) == Own(p, w.svc)
  {
    if Copy(k).Some? {
      StrandedCopy(State(w, k));
    }
    if WritesObject(RequestOf(p, k)) {
      if Accepted(p, w, k) {
        WriteIsExact(p, w, k, inp);
      }
    } else if !WritesPlane(RequestOf(p, k)) {
      OtherCallsShape(p, w, RequestOf(p, k), inp);
      SameObjectReported(w.log, Serve(p, w, RequestOf(p, k), inp).0.log);
    }
  }

  lemma SameObjectReported(a: Log, b: Log)
    requires NothingReported(a) && a <= b
    requires forall i :: |a| <= i < |b| ==> b[i].obj == a[|a| - 1].obj
    ensures NothingReported(b)
  {
    forall i | 0 <= i < |b| && b[i].obj.Some? ensures b[i].obj.value.status == EMPTY_STATUS {
      assert if i < |a| then b[i] == a[i] else b[i].obj == a[|a| - 1].obj;
    }
  }

  lemma RepliesKeepStranded(p: Params, s: State, inp: Input)
    requires Stranded(p, s) && !p.errors.conflictTyped
    ensures ClaimsNothing(Resume(p, s.k, Serve(p, s.w, RequestOf(p, s.k), inp).1, inp))
    ensures ClaimsNothing(Resume(p, s.k, Unavailable, inp))
  {
    if Copy(s.k).Some? {
      StrandedCopy(s);
      CopyHistory(p, s.w, Copy(s.k).value);
    }
    if s.k.CreatingPlane? {
      CreateRefused(p, s.w, s.k, inp);
    }
    ResumeStranded(p, s.k, Serve(p, s.w, RequestOf(p, s.k), inp).1, inp);
    ResumeStranded(p, s.k, Unavailable, inp);
  }

  lemma StepStranded(p: Params, s: State, inp: Input)
    requires Stranded(p, s) && !p.errors.conflictTyped
    ensures var (w', k') := Step(p, s.w, s.k, inp);
            NothingReported(w'.log) && Own(p, w'.svc).Some? && ClaimsNothing(k')
  {
    ServeStranded(p, s.w, s.k, inp);
    RepliesKeepStranded(p, s, inp);
  }

  lemma RequestKeepsStranded(p: Params, s: State, inp: Input)
    requires Stranded(p, s) && !p.errors.conflictTyped
    ensures Stranded(p, Apply(p, s, Request(inp)))
  {
    RequestKeepsGreen(p, s, inp);
    StepStranded(p, s, inp);
  }

  lemma UserKeepsReport(p: Params, s: State, l: Label)
    requires ByUser(l) && NothingReported(s.w.log)
    ensures var s' := Apply(p, s, l);
            NothingReported(s'.w.log) && s'.k == s.k && s'.w.svc == s.w.svc
  {
    UserStep(p, s, l);
    assert s.w.log[|s.w.log| - 1] == Cur(s.w);
  }

  lemma CreationReportsNothing(p: Params, s: State, l: Label)
    requires l.CreateObject? && NothingReported(s.w.log)
    ensures var s' := Apply(p, s, l);
            NothingReported(s'.w.log) && s'.k == s.k && s'.w.svc == s.w.svc
  {
  }

  lemma QuietKeepsReport(p: Params, s: State, s': State)
    requires Quiet(p, s, s') && NothingReported(s.w.log) && ClaimsNothing(s.k)
    ensures NothingReported(s'.w.log) && ClaimsNothing(s'.k) && Own(p, s'.w.svc) == Own(p, s.w.svc)
  {
    SameObjectReported(s.w.log, s'.w.log);
  }

  lemma OthersKeepStranded(p: Params, s: State, l: Label)
    requires Stranded(p, s) && !l.Request? && (SetsSpec(l) ==> l.spec.planeID == "")
    ensures Stranded(p, Apply(p, s, l))
  {
    ApplyKeepsGreen(p, s, l);
    if ByUser(l) {
      UserKeepsReport(p, s, l);
    } else if l.CreateObject? {
      CreationReportsNothing(p, s, l);
    } else {
      OthersQuiet(p, s, l);
      QuietKeepsReport(p, s, Apply(p, s, l));
    }
  }

  /** Without a typed 409 a stranded plane is never found again: in no greenfield
      continuation, whatever users, service and controller do, is anything ever
      reported, and the plane stays. */
  lemma {:induction false} StrandedForever(p: Params, s: State, labels: seq<Label>)
    requires Stranded(p, s) && !p.errors.conflictTyped && GreenRun(labels)
    ensures Stranded(p, Run(p, s, labels))
    ensures Own(p, Run(p, s, labels).w.svc).Some?
  {
    if labels != [] {
      var before, l := labels[..|labels| - 1], labels[|labels| - 1];
      assert l in labels;
      StrandedForever(p, s, before);
      var t := Run(p, s, before);
      if l.Request? {
        RequestKeepsStranded(p, t, l.inp);
      } else {
        OthersKeepStranded(p, t, l);
      }
    }
  }

  /** Exactly when a stranded plane is recovered: three undisturbed reconciles
      converge if and only if the client reports the 409 as a ConflictError, and
      can upgrade the plane if users have asked for another version meanwhile. */
  lemma StrandedRecovers(p: Params, w: World, crt: Bytes, inps: seq<Input>)
    requires Stranded(p, State(w, Idle)) && Serviceable(p, w, crt)
    requires AllCalm(p, GoalOf(p, w, crt), inps) && |inps| >= 3
    ensures Converged(p, Reconciles(p, w, inps), crt) <==>
              p.errors.conflictTyped && (Drifts(p, w) ==> p.errors.updateSupported)
  {
    StrandedUnclaimed(p, w);
    ThreeReconcilesConverge(p, w, crt, inps);
  }

  lemma StrandedUnclaimed(p: Params, w: World)
    requires Stranded(p, State(w, Idle)) && Cur(w).obj.Some?
    ensures Unclaimed(p, w)
  {
    assert Cur(w) == w.log[|w.log| - 1];
  }
}
