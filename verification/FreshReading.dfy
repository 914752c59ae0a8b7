/** Greenfield runs whose reads are fresh: at most one plane is ever created,
    and never without the finalizer in the store. */
module FreshReading {
  import opened Domain
  import opened Stores
  import opened Controller
  import opened Runs
  import opened Safety
  import opened Writes
  import opened Greenfield

  ghost predicate NothingDeleted(events: seq<Event>) {
    forall i :: 0 <= i < |events| ==> !events[i].Deleted?
  }

  ghost predicate CreatedFirst(events: seq<Event>) {
    forall i, j :: 0 <= i < j < |events| && events[j].Created? ==> !events[i].Deleted? && !events[i].Created?
  }

  ghost predicate FreshInv(p: Params, s: State) {
    && GreenInv(p, s)
    && CreatedFirst(s.w.events)
    && (Copy(s.k).Some? && !Copy(s.k).value.deleting ==> NothingDeleted(s.w.events))
    && (Copy(s.k).Some? && Copy(s.k).value.finalizer ==> HasFinalizer(Cur(s.w)))
  }

  lemma ServeEvents(p: Params, w: World, k: Worker, inp: Input)
    ensures var w' := Serve(p, w, RequestOf(p, k), inp).0;
            || w'.events == w.events
            || (exists e :: w'.events == w.events + [e] && (e.Created? ==> k.CreatingPlane?) && (e.Deleted? ==> k.DeletingPlane?))
  {
  }

  /** A reconcile keeps the deletion state it read, and its finalizer. */
  lemma ResumeKeepsReading(p: Params, k: Worker, r: Reply, inp: Input)
    requires Placed(k) && Fits(k, r) && !k.Reading?
    ensures var k' := Resume(p, k, r, inp);
            Copy(k').Some? ==> && Copy(k).Some?
                               && Copy(k').value.deleting == Copy(k).value.deleting
                               && Copy(k').value.finalizer == Copy(k).value.finalizer
  {
  }

  lemma ServeKeepsFinalizer(p: Params, w: World, k: Worker, inp: Input)
    requires Inv(State(w, k)) && !k.RemovingFinalizer?
    ensures HasFinalizer(Cur(w)) ==> HasFinalizer(Cur(Serve(p, w, RequestOf(p, k), inp).0))
  {
    if Accepted(p, w, k) {
      WriteIsExact(p, w, k, inp);
    } else {
      OtherRequestsKeepObject(p, w, k, inp);
    }
  }

  lemma FirstCreation(events: seq<Event>, e: Event)
    requires Alternates(events + [e]) && e.Created? && NothingDeleted(events)
    ensures forall i :: 0 <= i < |events| ==> !events[i].Created?
  {
    var events' := events + [e];
    assert events'[|events|].Created?;
    assert forall d :: 0 <= d < |events| ==> events'[d] == events[d];
  }

  /** A copy not marked for deletion was read before anything was deleted, so a
      creation on its behalf is the first. */
  lemma EventsKeepFresh(p: Params, w: World, w': World, k: Worker)
    requires FreshInv(p, State(w, k)) && Alternates(w'.events)
    requires w'.events == w.events
      || exists e :: w'.events == w.events + [e] && (e.Created? ==> k.CreatingPlane?) && (e.Deleted? ==> k.DeletingPlane?)
    ensures CreatedFirst(w'.events)
    ensures Copy(k).Some? && !Copy(k).value.deleting ==> NothingDeleted(w'.events)
  {
    if w'.events != w.events {
      var e :| w'.events == w.events + [e] && (e.Created? ==> k.CreatingPlane?) && (e.Deleted? ==> k.DeletingPlane?);
      if e.Created? {
        FirstCreation(w.events, e);
      }
    }
  }

  ghost predicate ReadingKept(w: World, w': World, k: Worker, k': Worker) {
    && (Copy(k').Some? ==> && Copy(k).Some?
                           && Copy(k').value.deleting == Copy(k).value.deleting
                           && Copy(k').value.finalizer == Copy(k).value.finalizer
                           && (HasFinalizer(Cur(w)) ==> HasFinalizer(Cur(w'))))
    && CreatedFirst(w'.events)
    && (Copy(k).Some? && !Copy(k).value.deleting ==> NothingDeleted(w'.events))
  }

  lemma KeptStaysFresh(p: Params, s: State, s': State)
    requires FreshInv(p, s) && GreenInv(p, s') && ReadingKept(s.w, s'.w, s.k, s'.k)
    ensures FreshInv(p, s')
  {
  }

  lemma ServeKeepsReading(p: Params, w: World, k: Worker, inp: Input)
    requires FreshInv(p, State(w, k)) && !k.Reading?
    ensures var (w', r) := Serve(p, w, RequestOf(p, k), inp);
            && ReadingKept(w, w', k, Resume(p, k, r, inp))
            && ReadingKept(w, w', k, Resume(p, k, Unavailable, inp))
            && ReadingKept(w, w, k, Resume(p, k, Unavailable, inp))
  {
    var (w', r) := Serve(p, w, RequestOf(p, k), inp);
    ServeEvents(p, w, k, inp);
    ServeKeepsGreen(p, w, k, inp);
    EventsKeepFresh(p, w, w', k);
    ServeFits(p, w, k, inp);
    ResumeKeepsReading(p, k, r, inp);
    ResumeKeepsReading(p, k, Unavailable, inp);
    if k.RemovingFinalizer? {
      ResumeCopy(p, k, r, inp);
      ResumeCopy(p, k, Unavailable, inp);
    } else {
      ServeKeepsFinalizer(p, w, k, inp);
    }
  }

  lemma StepKeepsReading(p: Params, s: State, inp: Input)
    requires FreshInv(p, s) && !s.k.Reading?
    ensures var s' := Apply(p, s, Request(inp)); ReadingKept(s.w, s'.w, s.k, s'.k)
  {
    ServeKeepsReading(p, s.w, s.k, inp);
  }

  lemma ReadIsFresh(p: Params, s: State, inp: Input)
    requires FreshInv(p, s) && inp.lag == 0 && s.k.Reading?
    ensures var s' := Apply(p, s, Request(inp));
            s'.w == s.w && (Copy(s'.k).Some? ==> Copy(s'.k) == Cur(s.w).obj)
  {
  }

  lemma CurrentCopyIsFresh(p: Params, s: State, s': State)
    requires FreshInv(p, s) && GreenInv(p, s')
    requires s'.w == s.w && (Copy(s'.k).Some? ==> Copy(s'.k) == Cur(s.w).obj)
    ensures FreshInv(p, s')
  {
  }

  lemma ReadKeepsFresh(p: Params, s: State, inp: Input)
    requires FreshInv(p, s) && inp.lag == 0 && s.k.Reading?
    ensures FreshInv(p, Apply(p, s, Request(inp)))
  {
    RequestKeepsGreen(p, s, inp);
    ReadIsFresh(p, s, inp);
    CurrentCopyIsFresh(p, s, Apply(p, s, Request(inp)));
  }

  lemma LaterRequestKeepsFresh(p: Params, s: State, inp: Input)
    requires FreshInv(p, s) && !s.k.Reading?
    ensures FreshInv(p, Apply(p, s, Request(inp)))
  {
    RequestKeepsGreen(p, s, inp);
    StepKeepsReading(p, s, inp);
    KeptStaysFresh(p, s, Apply(p, s, Request(inp)));
  }

  lemma RequestKeepsFresh(p: Params, s: State, inp: Input)
    requires FreshInv(p, s) && inp.lag == 0
    ensures FreshInv(p, Apply(p, s, Request(inp)))
  {
    if s.k.Reading? {
      ReadKeepsFresh(p, s, inp);
    } else {
      LaterRequestKeepsFresh(p, s, inp);
    }
  }

  lemma OthersKeepFinalizer(p: Params, s: State, l: Label)
    requires Inv(s) && !l.Request?
    ensures var s' := Apply(p, s, l);
            && (HasFinalizer(Cur(s.w)) ==> HasFinalizer(Cur(s'.w)))
            && s'.w.events == s.w.events
            && (s'.k == s.k || Copy(s'.k).None?)
  {
    if ByUser(l) { UserStep(p, s, l); } else if !l.CreateObject? { OthersQuiet(p, s, l); }
  }

  lemma {:induction false} RunKeepsFresh(p: Params, s: State, labels: seq<Label>)
    requires FreshInv(p, s) && GreenRun(labels) && FreshReads(labels)
    ensures FreshInv(p, Run(p, s, labels))
  {
    if labels != [] {
      var before, l := labels[..|labels| - 1], labels[|labels| - 1];
      assert l in labels;
      RunKeepsFresh(p, s, before);
      ApplyKeepsFresh(p, Run(p, s, before), l);
    }
  }

  lemma ApplyKeepsFresh(p: Params, s: State, l: Label)
    requires FreshInv(p, s)
    requires (SetsSpec(l) ==> l.spec.planeID == "") && (l.Request? ==> l.inp.lag == 0)
    ensures FreshInv(p, Apply(p, s, l))
  {
    if l.Request? {
      RequestKeepsFresh(p, s, l.inp);
    } else {
      ApplyKeepsGreen(p, s, l);
      OthersKeepFinalizer(p, s, l);
    }
  }

  /** With fresh reads at most one creation ever succeeds, none after a
      deletion, and every creation is asked for while the finalizer is stored. */
  lemma FinalizerBeforeCreation(p: Params, s: State, labels: seq<Label>)
    requires Init(s) && GreenStart(s) && GreenRun(labels) && FreshReads(labels)
    ensures var t := Run(p, s, labels);
            && CreatedFirst(t.w.events)
            && (RequestOf(p, t.k).CreatePlane? ==> HasFinalizer(Cur(t.w)) && t.k.ncp.finalizer)
  {
    InitFresh(p, s);
    RunKeepsFresh(p, s, labels);
    FreshCreation(p, Run(p, s, labels));
  }

  lemma InitFresh(p: Params, s: State)
    requires Init(s) && GreenStart(s)
    ensures FreshInv(p, s)
  {
    InitGreen(p, s);
  }

  lemma FreshCreation(p: Params, s: State)
    requires Placed(s.k) && (Copy(s.k).Some? && Copy(s.k).value.finalizer ==> HasFinalizer(Cur(s.w)))
    ensures RequestOf(p, s.k).CreatePlane? ==> HasFinalizer(Cur(s.w)) && s.k.ncp.finalizer
  {
  }
}
