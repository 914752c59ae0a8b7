/** Runs in which nobody sets spec.planeID: one plane per object, recorded
    once, never lost sight of until it is deleted. Reads may be stale and the
    error mapping may be any. */
module Greenfield {
  import opened Domain
  import opened Stores
  import opened Controller
  import opened Runs
  import opened Safety
  import opened Writes

  /** The plane ID a snapshot has on record. */
  function IdAt(c: Snapshot): string {
    if c.obj.Some? then c.obj.value.status.planeID else ""
  }

  ghost predicate Recorded(log: Log, id: string) {
    id != "" && exists i :: 0 <= i < |log| && IdAt(log[i]) == id
  }

  /** The plane the service holds under this object's name. */
  function Own(p: Params, v: Service): Option<string> {
    Lookup(v.names, p.name)
  }

  predicate HasFinalizer(c: Snapshot) {
    c.obj.Some? && c.obj.value.finalizer
  }

  ghost predicate LogGreen(p: Params, log: Log, issued: map<string, string>) {
    && (forall i :: 0 <= i < |log| && log[i].obj.Some? ==> log[i].obj.value.spec.planeID == "")
    && (forall i, j :: 0 <= i <= j < |log| && IdAt(log[i]) != "" && log[j].obj.Some? ==>
          IdAt(log[j]) == IdAt(log[i]))
    && (forall i, j :: 0 <= i <= j < |log| && IdAt(log[i]) != "" && IdAt(log[j]) != "" ==>
          IdAt(log[j]) == IdAt(log[i]))
    && (forall i :: 0 <= i < |log| && IdAt(log[i]) != "" ==>
          IdAt(log[i]) in issued && issued[IdAt(log[i])] == p.name)
  }

  /** A recorded plane that still exists is protected by the finalizer. */
  ghost predicate Guarded(log: Log, own: Option<string>) {
    forall i :: 0 <= i < |log| && IdAt(log[i]) != "" && own == Some(IdAt(log[i])) ==>
      HasFinalizer(log[|log| - 1])
  }

  /** Until deletion is requested, the recorded plane exists. */
  ghost predicate Live(c: Snapshot, own: Option<string>) {
    c.obj.Some? && !c.obj.value.deleting && IdAt(c) != "" ==> own == Some(IdAt(c))
  }

  ghost predicate DeletedAfter(events: seq<Event>, i: nat) {
    exists j :: i < j < |events| && events[j].Deleted?
  }

  /** Between two successful creations there is a successful deletion. */
  ghost predicate Alternates(events: seq<Event>) {
    forall i, j :: 0 <= i < j < |events| && events[i].Created? && events[j].Created? ==>
      exists d :: i < d < j && events[d].Deleted?
  }

  ghost predicate EventsOK(p: Params, w: World) {
    && Alternates(w.events)
    && (forall i :: 0 <= i < |w.events| && w.events[i].Created? ==>
          && w.events[i].id in w.svc.issued && w.svc.issued[w.events[i].id] == p.name
          && (Own(p, w.svc) == Some(w.events[i].id) || Recorded(w.log, w.events[i].id))
          && (Own(p, w.svc) == Some(w.events[i].id) || DeletedAfter(w.events, i)))
    && (forall i :: 0 <= i < |w.events| && w.events[i].Deleted? ==>
          Recorded(w.log, w.events[i].id) && (Cur(w).obj.None? || Cur(w).obj.value.deleting))
  }

  ghost predicate GreenWorld(p: Params, w: World) {
    && LogGreen(p, w.log, w.svc.issued)
    && Guarded(w.log, Own(p, w.svc))
    && Live(Cur(w), Own(p, w.svc))
    && EventsOK(p, w)
  }

  ghost predicate GreenWorker(p: Params, v: Service, k: Worker) {
    && (k.PersistingID? ==> Own(p, v) == Some(k.id))
    && (k.RemovingFinalizer? && k.ncp.status.planeID != "" ==> Own(p, v) != Some(k.ncp.status.planeID))
    && (Resolved(k) ==> ResolvedID(k) != "")
  }

  ghost predicate GreenInv(p: Params, s: State) {
    Inv(s) && GreenWorld(p, s.w) && GreenWorker(p, s.w.svc, s.k)
  }

  // ---- Worlds ----

  lemma OwnPlane(p: Params, v: Service, id: string)
    requires ServiceOK(v) && id in v.issued && v.issued[id] == p.name
    ensures id in v.planes <==> Own(p, v) == Some(id)
  {
  }

  lemma RecordedGrows(a: Log, b: Log)
    requires a <= b
    ensures forall id :: Recorded(a, id) ==> Recorded(b, id)
  {
    forall id | Recorded(a, id) ensures Recorded(b, id) {
      var i :| 0 <= i < |a| && IdAt(a[i]) == id;
      assert IdAt(b[i]) == id;
    }
  }

  predicate Extends(a: map<string, string>, b: map<string, string>) {
    forall id :: id in a ==> id in b && b[id] == a[id]
  }

  /** Steps that leave object, own plane and own events alone. */
  lemma Unmoved(p: Params, w: World, w': World)
    requires GreenWorld(p, w) && w.log <= w'.log
    requires forall i :: |w.log| <= i < |w'.log| ==> w'.log[i].obj == Cur(w).obj
    requires Own(p, w'.svc) == Own(p, w.svc) && Extends(w.svc.issued, w'.svc.issued)
    requires w'.events == w.events
    ensures GreenWorld(p, w')
  {
    assert forall i :: |w.log| <= i < |w'.log| ==> IdAt(w'.log[i]) == IdAt(Cur(w));
    assert Cur(w').obj == Cur(w).obj;
    RecordedGrows(w.log, w'.log);
  }

  /** An object write the greenfield invariant allows. */
  ghost predicate GreenWrite(own: Option<string>, o: ControlPlane, n: ControlPlane) {
    var id := n.status.planeID;
    && n.spec.planeID == ""
    && (o.deleting ==> n.deleting)
    && (id == o.status.planeID || (o.status.planeID == "" && id != "" && own == Some(id)))
    && (id != "" && own == Some(id) ==> n.finalizer)
    && (id != "" && !n.deleting ==> own == Some(id))
  }

  lemma GreenStoreLog(p: Params, w: World, o: ControlPlane, n: ControlPlane)
    requires ServiceOK(w.svc) && Cur(w).obj == Some(o) && GreenWrite(Own(p, w.svc), o, n)
    requires LogGreen(p, w.log, w.svc.issued)
    ensures LogGreen(p, StoreObject(w, o, n).log, w.svc.issued)
  {
    assert forall i :: 0 <= i < |w.log| && IdAt(w.log[i]) != "" ==> IdAt(w.log[|w.log| - 1]) == IdAt(w.log[i]);
  }

  lemma GreenStore(p: Params, w: World, o: ControlPlane, n: ControlPlane)
    requires ServiceOK(w.svc) && GreenWorld(p, w) && Cur(w).obj == Some(o)
    requires GreenWrite(Own(p, w.svc), o, n)
    ensures GreenWorld(p, StoreObject(w, o, n))
  {
    var w' := StoreObject(w, o, n);
    GreenStoreLog(p, w, o, n);
    RecordedGrows(w.log, w'.log);
    if n != o {
      assert forall i :: 0 <= i < |w.log| && IdAt(w.log[i]) != "" ==> o.status.planeID == IdAt(w.log[i]);
      assert Guarded(w'.log, Own(p, w.svc));
      assert Live(Cur(w'), Own(p, w.svc));
    }
  }

  lemma NoteKeepsGreen(p: Params, w: World, e: Event)
    requires GreenWorld(p, w) && !e.Created? && !e.Deleted?
    ensures GreenWorld(p, Note(w, e))
  {
    var w' := Note(w, e);
    forall i | 0 <= i < |w'.events| && w'.events[i].Created? && DeletedAfter(w.events, i)
      ensures DeletedAfter(w'.events, i)
    {
      var j :| i < j < |w.events| && w.events[j].Deleted?;
      assert w'.events[j].Deleted?;
    }
    AlternatesNote(w.events, e);
  }

  lemma AlternatesNote(events: seq<Event>, e: Event)
    requires Alternates(events)
    requires e.Created? ==> forall i :: 0 <= i < |events| && events[i].Created? ==> DeletedAfter(events, i)
    ensures Alternates(events + [e])
  {
    var events' := events + [e];
    forall i, j | 0 <= i < j < |events'| && events'[i].Created? && events'[j].Created?
      ensures exists d :: i < d < j && events'[d].Deleted?
    {
      if j == |events| {
        assert DeletedAfter(events, i);
        var d :| i < d < |events| && events[d].Deleted?;
        assert events'[d].Deleted?;
      } else {
        var d :| i < d < j && events[d].Deleted?;
        assert events'[d].Deleted?;
      }
    }
  }

  lemma CreationKeepsGreen(p: Params, w: World, version: string)
    requires LogOK(w) && ServiceOK(w.svc) && GreenWorld(p, w)
    requires p.name !in w.svc.names && w.svc.next.Some?
    ensures var d := w.svc.next.value;
            GreenWorld(p, Note(w.(svc := WithPlane(w.svc, d, p.name, version)), Created(d.id)))
  {
    var d := w.svc.next.value;
    var w' := Note(w.(svc := WithPlane(w.svc, d, p.name, version)), Created(d.id));
    AlternatesNote(w.events, Created(d.id));
    forall i | 0 <= i < |w.events| && w.events[i].Created? ensures DeletedAfter(w'.events, i) {
      var j :| i < j < |w.events| && w.events[j].Deleted?;
      assert w'.events[j].Deleted?;
    }
  }

  lemma DeletionKeepsGreen(p: Params, w: World, id: string)
    requires LogOK(w) && ServiceOK(w.svc) && GreenWorld(p, w)
    requires id in w.svc.planes && Recorded(w.log, id)
    requires Cur(w).obj.None? || Cur(w).obj.value.deleting
    ensures var w' := Note(w.(svc := WithoutPlane(w.svc, id)), Deleted(id));
            GreenWorld(p, w') && Own(p, w'.svc).None?
  {
    var w' := Note(w.(svc := WithoutPlane(w.svc, id)), Deleted(id));
    assert w.svc.issued[id] == p.name;
    OwnPlane(p, w.svc, id);
    AlternatesNote(w.events, Deleted(id));
    assert w'.events[|w.events|].Deleted?;
    forall i | 0 <= i < |w.events| ensures DeletedAfter(w'.events, i) {
    }
  }

  // ---- One request ----

  lemma WriteIsGreen(p: Params, w: World, k: Worker)
    requires GreenInv(p, State(w, k)) && Accepted(p, w, k)
    requires Copy(k).Some? && Written(k).Some? && Cur(w).obj == Some(Copy(k).value)
    ensures GreenWrite(Own(p, w.svc), Copy(k).value, Written(k).value)
  {
    assert w.log[|w.log| - 1].obj.value.spec.planeID == "";
  }

  /** The copy a reconcile works on, placed in the history of the object. */
  lemma CopyHistory(p: Params, w: World, copy: ControlPlane)
    requires LogOK(w) && LogGreen(p, w.log, w.svc.issued) && Seen(w.log, copy)
    ensures copy.spec.planeID == ""
    ensures copy.status.planeID != "" ==>
              && Recorded(w.log, copy.status.planeID)
              && copy.status.planeID in w.svc.issued && w.svc.issued[copy.status.planeID] == p.name
    ensures copy.deleting ==> Cur(w).obj.None? || Cur(w).obj.value.deleting
  {
    var i :| 0 <= i < |w.log| && w.log[i].obj == Some(copy);
    assert IdAt(w.log[i]) == copy.status.planeID;
    assert Evolves(w.log[i].obj, w.log[|w.log| - 1].obj);
  }

  lemma CreateKeepsGreen(p: Params, w: World, version: string, inp: Input)
    requires LogOK(w) && ServiceOK(w.svc) && GreenWorld(p, w)
    ensures GreenWorld(p, Serve(p, w, CreatePlane(p.name, version), inp).0)
  {
    if p.name in w.svc.names {
      NoteKeepsGreen(p, w, CreateConflict);
    } else if w.svc.next.Some? {
      CreationKeepsGreen(p, w, version);
    }
  }

  lemma UpgradeKeepsGreen(p: Params, w: World, id: string, version: string, inp: Input)
    requires GreenWorld(p, w)
    ensures GreenWorld(p, Serve(p, w, UpdatePlane(id, version), inp).0)
  {
    if p.errors.updateSupported && id in w.svc.planes {
      var w1 := w.(svc := WithVersion(w.svc, id, version));
      Unmoved(p, w, w1);
      NoteKeepsGreen(p, w1, Upgraded(id));
    }
  }

  lemma DeleteKeepsGreen(p: Params, w: World, ncp: ControlPlane, inp: Input)
    requires LogOK(w) && ServiceOK(w.svc) && GreenWorld(p, w) && Seen(w.log, ncp)
    requires ncp.deleting && ncp.status.planeID != ""
    ensures GreenWorld(p, Serve(p, w, DeletePlane(ncp.status.planeID), inp).0)
  {
    CopyHistory(p, w, ncp);
    if ncp.status.planeID in w.svc.planes {
      DeletionKeepsGreen(p, w, ncp.status.planeID);
    } else {
      NoteKeepsGreen(p, w, DeleteMissed(ncp.status.planeID));
    }
  }

  lemma PlaneCallsKeepGreen(p: Params, w: World, k: Worker, inp: Input)
    requires GreenInv(p, State(w, k))
    requires k.CreatingPlane? || k.Upgrading? || k.DeletingPlane?
    ensures GreenWorld(p, Serve(p, w, RequestOf(p, k), inp).0)
  {
    match k
    case CreatingPlane(ncp) => CreateKeepsGreen(p, w, ncp.spec.version, inp);
    case Upgrading(ncp, id) => UpgradeKeepsGreen(p, w, id, ncp.spec.version, inp);
    case DeletingPlane(ncp) => DeleteKeepsGreen(p, w, ncp, inp);
  }

  lemma OtherCallsShape(p: Params, w: World, c: Call, inp: Input)
    requires !WritesPlane(c) && !WritesObject(c)
    ensures var w' := Serve(p, w, c, inp).0;
            && w.log <= w'.log && w'.svc == w.svc && w'.events == w.events
            && forall i :: |w.log| <= i < |w'.log| ==> w'.log[i].obj == Cur(w).obj
  {
  }

  lemma ServeKeepsGreen(p: Params, w: World, k: Worker, inp: Input)
    requires GreenInv(p, State(w, k))
    ensures GreenWorld(p, Serve(p, w, RequestOf(p, k), inp).0)
  {
    var c := RequestOf(p, k);
    if WritesObject(c) {
      if Accepted(p, w, k) {
        WriteIsExact(p, w, k, inp);
        WriteIsGreen(p, w, k);
        GreenStore(p, w, Copy(k).value, Written(k).value);
      }
    } else if WritesPlane(c) {
      PlaneCallsKeepGreen(p, w, k, inp);
    } else {
      OtherCallsShape(p, w, c, inp);
      Unmoved(p, w, Serve(p, w, c, inp).0);
    }
  }

  /** What the replies about planes say of the service. */
  ghost predicate GreenReply(p: Params, v: Service, k: Worker, r: Reply) {
    && ((k.CreatingPlane? || k.LookingUp?) && r.PlaneIs? ==> Own(p, v) == Some(r.plane.id))
    && (k.DeletingPlane? && (r.Ack? || r.Absent?) ==> Own(p, v) != Some(k.ncp.status.planeID))
  }

  lemma ResumeGreen(p: Params, v: Service, k: Worker, r: Reply, inp: Input)
    requires Placed(k) && GreenReply(p, v, k, r)
    requires Resolved(k) ==> ResolvedID(k) != ""
    ensures GreenWorker(p, v, Resume(p, k, r, inp))
  {
  }

  lemma ServeGreenReply(p: Params, w: World, k: Worker, inp: Input)
    requires GreenInv(p, State(w, k))
    ensures var (w', r) := Serve(p, w, RequestOf(p, k), inp);
            GreenReply(p, w'.svc, k, r)
  {
    if k.DeletingPlane? {
      CopyHistory(p, w, k.ncp);
      OwnPlane(p, w.svc, k.ncp.status.planeID);
    }
  }

  lemma RepliedKeepsGreen(p: Params, s: State, inp: Input)
    requires GreenInv(p, s)
    ensures var (w', r) := Serve(p, s.w, RequestOf(p, s.k), inp);
            GreenWorker(p, w'.svc, Resume(p, s.k, r, inp))
  {
    var (w', r) := Serve(p, s.w, RequestOf(p, s.k), inp);
    ServeGreenReply(p, s.w, s.k, inp);
    ResumeGreen(p, w'.svc, s.k, r, inp);
  }

  lemma RequestKeepsGreen(p: Params, s: State, inp: Input)
    requires GreenInv(p, s)
    ensures GreenInv(p, Apply(p, s, Request(inp)))
  {
    StepKeepsInv(p, s, inp);
    ServeKeepsGreen(p, s.w, s.k, inp);
    match inp.outcome
    case Success => RepliedKeepsGreen(p, s, inp);
    case Fails => ResumeGreen(p, s.w.svc, s.k, Unavailable, inp);
    case ReplyLost => ResumeGreen(p, Serve(p, s.w, RequestOf(p, s.k), inp).0.svc, s.k, Unavailable, inp);
  }

  // ---- Everybody else ----

  lemma UserKeepsGreen(p: Params, s: State, l: Label)
    requires GreenInv(p, s) && ByUser(l) && (l.Edit? ==> l.spec.planeID == "")
    ensures GreenWorld(p, Apply(p, s, l).w) && GreenWorker(p, Apply(p, s, l).w.svc, Apply(p, s, l).k)
  {
    UserStep(p, s, l);
    if Cur(s.w).obj.Some? {
      var o := Cur(s.w).obj.value;
      assert s.w.log[|s.w.log| - 1].obj.value.spec.planeID == "";
      GreenStore(p, s.w, o, UserWanted(o, l));
    }
  }

  /** Nothing of this object, its plane or its requests moved; the reconcile at
      most lost its place. */
  ghost predicate Quiet(p: Params, s: State, s': State) {
    && s.w.log <= s'.w.log && s'.w.events == s.w.events
    && (forall i :: |s.w.log| <= i < |s'.w.log| ==> s'.w.log[i].obj == Cur(s.w).obj)
    && Own(p, s'.w.svc) == Own(p, s.w.svc) && Extends(s.w.svc.issued, s'.w.svc.issued)
    && (s'.k == s.k || Copy(s'.k).None?)
  }

  lemma OthersQuiet(p: Params, s: State, l: Label)
    requires Inv(s) && Aside(l)
    ensures Quiet(p, s, Apply(p, s, l))
  {
  }

  lemma QuietKeepsGreen(p: Params, s: State, s': State)
    requires GreenInv(p, s) && Quiet(p, s, s')
    ensures GreenWorld(p, s'.w) && GreenWorker(p, s'.w.svc, s'.k)
  {
    Unmoved(p, s.w, s'.w);
  }

  lemma OthersKeepGreen(p: Params, s: State, l: Label)
    requires GreenInv(p, s) && Aside(l)
    ensures GreenWorld(p, Apply(p, s, l).w) && GreenWorker(p, Apply(p, s, l).w.svc, Apply(p, s, l).k)
  {
    OthersQuiet(p, s, l);
    QuietKeepsGreen(p, s, Apply(p, s, l));
  }

  lemma CreationIsGreen(p: Params, s: State, l: Label)
    requires GreenInv(p, s) && l.CreateObject? && l.spec.planeID == ""
    ensures GreenWorld(p, Apply(p, s, l).w) && GreenWorker(p, Apply(p, s, l).w.svc, Apply(p, s, l).k)
  {
    var w, w' := s.w, Apply(p, s, l).w;
    RecordedGrows(w.log, w'.log);
    if w.born.None? {
      assert forall i :: 0 <= i < |w'.log| ==> IdAt(w'.log[i]) == "";
      assert forall i :: 0 <= i < |w.log| ==> IdAt(w.log[i]) == "";
    }
  }

  lemma ApplyKeepsGreen(p: Params, s: State, l: Label)
    requires GreenInv(p, s) && (SetsSpec(l) ==> l.spec.planeID == "")
    ensures GreenInv(p, Apply(p, s, l))
  {
    if l.Request? {
      RequestKeepsGreen(p, s, l.inp);
    } else {
      ApplyKeepsInv(p, s, l);
      if ByUser(l) {
        UserKeepsGreen(p, s, l);
      } else if l.CreateObject? {
        CreationIsGreen(p, s, l);
      } else {
        OthersKeepGreen(p, s, l);
      }
    }
  }

  lemma {:induction false} RunKeepsGreen(p: Params, s: State, labels: seq<Label>)
    requires GreenInv(p, s) && GreenRun(labels)
    ensures GreenInv(p, Run(p, s, labels))
  {
    if labels != [] {
      var before, l := labels[..|labels| - 1], labels[|labels| - 1];
      assert l in labels;
      RunKeepsGreen(p, s, before);
      ApplyKeepsGreen(p, Run(p, s, before), l);
    }
  }

  lemma InitGreen(p: Params, s: State)
    requires Init(s) && GreenStart(s)
    ensures GreenInv(p, s)
  {
    InitInv(s);
  }

  // ---- The results ----

  /** Crash-safe single creation: whatever is lost or crashes, between any two
      successful creations lies a successful deletion. */
  lemma SingleCreation(p: Params, s: State, labels: seq<Label>)
    requires Init(s) && GreenStart(s) && GreenRun(labels)
    ensures Alternates(Run(p, s, labels).w.events)
  {
    InitGreen(p, s);
    RunKeepsGreen(p, s, labels);
  }

  lemma ResolvedIsRecorded(p: Params, s: State)
    requires GreenInv(p, s) && Resolved(s.k)
    ensures Recorded(s.w.log, ResolvedID(s.k))
    ensures Copy(s.k).value.status.planeID == ResolvedID(s.k)
  {
    PlacedID(s.k);
    CopyHistory(p, s.w, Copy(s.k).value);
  }

  lemma PlacedID(k: Worker)
    requires Placed(k) && Resolved(k)
    ensures Copy(k).Some? && ResolvedID(k) == IdOf(Copy(k).value)
  {
  }

  lemma RecordedOnce(p: Params, w: World, a: string, b: string)
    requires GreenWorld(p, w) && Recorded(w.log, a) && Recorded(w.log, b)
    ensures a == b
  {
    var i :| 0 <= i < |w.log| && IdAt(w.log[i]) == a;
    var j :| 0 <= j < |w.log| && IdAt(w.log[j]) == b;
    assert if i <= j then IdAt(w.log[j]) == IdAt(w.log[i]) else IdAt(w.log[i]) == IdAt(w.log[j]);
  }

  /** Every successful resolvePlaneID of a run returns the same ID, and it is
      the one the kubeconfig is fetched for. */
  lemma SameIdEveryTime(p: Params, s: State, labels: seq<Label>, n: nat)
    requires Init(s) && GreenStart(s) && GreenRun(labels) && n <= |labels|
    ensures var a, b := Run(p, s, labels[..n]).k, Run(p, s, labels).k;
            && (Resolved(a) && Resolved(b) ==> ResolvedID(a) == ResolvedID(b))
            && (Resolved(b) ==> Copy(b).value.status.planeID == ResolvedID(b))
  {
    InitGreen(p, s);
    RunKeepsGreen(p, s, labels);
    RunKeepsGreen(p, s, labels[..n]);
    LogGrows(p, s, labels, n);
    var a, b := Run(p, s, labels[..n]), Run(p, s, labels);
    if Resolved(b.k) {
      ResolvedIsRecorded(p, b);
      if Resolved(a.k) {
        ResolvedIsRecorded(p, a);
        RecordedGrows(a.w.log, b.w.log);
        RecordedOnce(p, b.w, ResolvedID(a.k), ResolvedID(b.k));
      }
    }
  }

  /** status.planeID is written once. */
  lemma PlaneIdWriteOnce(p: Params, s: State, labels: seq<Label>, n: nat)
    requires Init(s) && GreenStart(s) && GreenRun(labels) && n <= |labels|
    ensures var a, b := Cur(Run(p, s, labels[..n]).w).obj, Cur(Run(p, s, labels).w).obj;
            a.Some? && b.Some? && a.value.status.planeID != "" ==>
              b.value.status.planeID == a.value.status.planeID
  {
    InitGreen(p, s);
    RunKeepsGreen(p, s, labels);
    LogGrows(p, s, labels, n);
    IdStays(p, Run(p, s, labels[..n]).w, Run(p, s, labels).w);
  }

  lemma IdStays(p: Params, a: World, b: World)
    requires a.log <= b.log && LogGreen(p, b.log, b.svc.issued)
    ensures Cur(a).obj.Some? && Cur(b).obj.Some? && IdAt(Cur(a)) != "" ==> IdAt(Cur(b)) == IdAt(Cur(a))
  {
    assert b.log[|a.log| - 1] == Cur(a) && b.log[|b.log| - 1] == Cur(b);
  }

  ghost predicate EverCreated(w: World, id: string) {
    Created(id) in w.events
  }

  /** Delete leaves nothing recorded behind: once the finalizer is gone, a plane
      this controller created exists exactly if its ID never reached the
      stored status; a plane it adopted and recorded is gone as well. */
  lemma DeleteLeavesOnlyUnrecorded(p: Params, s: State, labels: seq<Label>, id: string)
    requires Init(s) && GreenStart(s) && GreenRun(labels)
    requires !HasFinalizer(Cur(Run(p, s, labels).w))
    ensures var w := Run(p, s, labels).w;
            && (Recorded(w.log, id) ==> id !in w.svc.planes)
            && (EverCreated(w, id) ==> (id in w.svc.planes <==> !Recorded(w.log, id)))
  {
    InitGreen(p, s);
    RunKeepsGreen(p, s, labels);
    var w := Run(p, s, labels).w;
    if Recorded(w.log, id) {
      OwnPlane(p, w.svc, id);
    }
    if EverCreated(w, id) {
      var i :| 0 <= i < |w.events| && w.events[i] == Created(id);
      OwnPlane(p, w.svc, id);
    }
  }

  /** While a recorded plane exists, the finalizer is stored; and it does exist
      as long as nobody asked for deletion. */
  lemma FinalizerGuardsPlane(p: Params, s: State, labels: seq<Label>, id: string)
    requires Init(s) && GreenStart(s) && GreenRun(labels)
    requires Recorded(Run(p, s, labels).w.log, id)
    ensures var w := Run(p, s, labels).w;
            && (id in w.svc.planes ==> HasFinalizer(Cur(w)))
            && (Cur(w).obj.Some? && !Cur(w).obj.value.deleting ==>
                  HasFinalizer(Cur(w)) && id in w.svc.planes && w.svc.planes[id].plane.name == p.name)
  {
    InitGreen(p, s);
    RunKeepsGreen(p, s, labels);
    var w := Run(p, s, labels).w;
    OwnPlane(p, w.svc, id);
    var i :| 0 <= i < |w.log| && IdAt(w.log[i]) == id;
    assert Cur(w).obj.Some? ==> IdAt(w.log[|w.log| - 1]) == id;
  }
}
