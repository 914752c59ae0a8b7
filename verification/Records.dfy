/** Which objects can have the same plane on record. The fleet is any: names and
    clusters may repeat, and each object may have a client of its own. */
module Records {
  import opened Domain
  import opened Stores
  import opened Controller
  import opened Runs
  import opened Safety
  import opened Greenfield
  import opened Fleet

  // ---- One object ----

  ghost predicate Made(events: seq<Event>, id: string) {
    Created(id) in events
  }

  /** The ID was issued for the object's name and, if the client does not type
      the 409, to this very object. */
  ghost predicate Rightful(p: Params, w: World, id: string) {
    && id in w.svc.issued && w.svc.issued[id] == p.name
    && (!p.errors.conflictTyped ==> Made(w.events, id))
  }

  ghost predicate NoSpecID(log: Log) {
    forall i :: 0 <= i < |log| && log[i].obj.Some? ==> log[i].obj.value.spec.planeID == ""
  }

  ghost predicate RecordInv(p: Params, s: State) {
    && Inv(s) && NoSpecID(s.w.log)
    && (forall id :: Recorded(s.w.log, id) ==> Rightful(p, s.w, id))
    && (s.k.PersistingID? ==> Rightful(p, s.w, s.k.id))
    && (s.k.LookingUp? ==> p.errors.conflictTyped)
    && (forall id :: Made(s.w.events, id) ==> id in s.w.svc.issued)
  }

  /** What happens to the service and to this object's requests on the way. */
  ghost predicate ServiceGrows(p: Params, w: World, w': World) {
    && Extends(w.svc.issued, w'.svc.issued) && w.events <= w'.events
    && (forall id :: Made(w'.events, id) && !Made(w.events, id) ==>
          id !in w.svc.issued && id in w'.svc.issued && w'.svc.issued[id] == p.name)
  }

  lemma NoteGrows(p: Params, w: World, w': World, e: Event)
    requires w'.events == w.events + [e] && Extends(w.svc.issued, w'.svc.issued)
    requires e.Created? ==> e.id !in w.svc.issued && e.id in w'.svc.issued && w'.svc.issued[e.id] == p.name
    ensures ServiceGrows(p, w, w')
    ensures e.Created? ==> Made(w'.events, e.id)
  {
  }

  lemma ServeGrows(p: Params, w: World, k: Worker, inp: Input)
    requires ServiceOK(w.svc)
    ensures ServiceGrows(p, w, Serve(p, w, RequestOf(p, k), inp).0)
  {
    var w' := Serve(p, w, RequestOf(p, k), inp).0;
    if WritesPlane(RequestOf(p, k)) {
      PlaneCallNotes(p, w, RequestOf(p, k), inp);
      if w'.events != w.events {
        NoteGrows(p, w, w', w'.events[|w.events|]);
      }
    } else {
      OtherCallsKeepService(p, w, RequestOf(p, k), inp);
    }
  }

  lemma PlaneCallNotes(p: Params, w: World, c: Call, inp: Input)
    requires ServiceOK(w.svc) && WritesPlane(c) && (c.CreatePlane? ==> c.name == p.name)
    ensures var w' := Serve(p, w, c, inp).0;
            && Extends(w.svc.issued, w'.svc.issued)
            && (w'.events == w.events ||
                  (&& |w'.events| == |w.events| + 1
                   && var e := w'.events[|w.events|];
                      && w'.events == w.events + [e]
                      && (e.Created? ==> e.id !in w.svc.issued && e.id in w'.svc.issued && w'.svc.issued[e.id] == p.name)))
  {
  }

  lemma StillRightful(p: Params, w: World, w': World, id: string)
    requires Rightful(p, w, id) && ServiceGrows(p, w, w')
    ensures Rightful(p, w', id)
  {
  }

  lemma CopyRecorded(s: State)
    requires Inv(s) && NoSpecID(s.w.log) && Copy(s.k).Some?
    ensures Copy(s.k).value.spec.planeID == ""
    ensures Copy(s.k).value.status.planeID != "" ==> Recorded(s.w.log, Copy(s.k).value.status.planeID)
  {
    var i :| 0 <= i < |s.w.log| && s.w.log[i].obj == Copy(s.k);
    assert IdAt(s.w.log[i]) == Copy(s.k).value.status.planeID;
  }

  /** The log goes on, and its new end has an ID that is known. */
  lemma RecordedNext(a: Log, b: Log)
    requires a <= b && |b| <= |a| + 1
    ensures forall id :: Recorded(b, id) ==> Recorded(a, id) || IdAt(b[|b| - 1]) == id
  {
    forall id | Recorded(b, id) ensures Recorded(a, id) || IdAt(b[|b| - 1]) == id {
      var i :| 0 <= i < |b| && IdAt(b[i]) == id;
      if i < |a| {
        assert IdAt(a[i]) == id;
      }
    }
  }

  lemma RecordedNow(log: Log)
    requires IdAt(log[|log| - 1]) != ""
    ensures Recorded(log, IdAt(log[|log| - 1]))
  {
  }

  lemma WriteRecords(p: Params, w: World, k: Worker)
    requires RecordInv(p, State(w, k)) && Copy(k).Some? && Written(k).Some?
    ensures Written(k).value.spec.planeID == ""
    ensures var id := Written(k).value.status.planeID;
            id == "" || Recorded(w.log, id) || (k.PersistingID? && k.id == id)
  {
    CopyRecorded(State(w, k));
  }

  lemma StoredRecords(w: World, o: ControlPlane, n: ControlPlane)
    requires Cur(w).obj == Some(o) && NoSpecID(w.log) && n.spec.planeID == ""
    ensures var w' := StoreObject(w, o, n);
            && w.log <= w'.log && |w'.log| <= |w.log| + 1 && NoSpecID(w'.log)
            && (IdAt(Cur(w')) == "" || IdAt(Cur(w')) == n.status.planeID)
  {
  }

  lemma AcceptedRecords(p: Params, w: World, k: Worker, inp: Input)
    requires RecordInv(p, State(w, k)) && Accepted(p, w, k)
    ensures var w' := Serve(p, w, RequestOf(p, k), inp).0;
            && w.log <= w'.log && |w'.log| <= |w.log| + 1 && NoSpecID(w'.log)
            && (IdAt(Cur(w')) == "" || Recorded(w.log, IdAt(Cur(w'))) || (k.PersistingID? && k.id == IdAt(Cur(w'))))
  {
    WriteIsExact(p, w, k, inp);
    WriteRecords(p, w, k);
    StoredRecords(w, Copy(k).value, Written(k).value);
  }

  lemma ServeRecords(p: Params, w: World, k: Worker, inp: Input)
    requires RecordInv(p, State(w, k))
    ensures var w' := Serve(p, w, RequestOf(p, k), inp).0;
            && w.log <= w'.log && |w'.log| <= |w.log| + 1 && NoSpecID(w'.log)
            && (IdAt(Cur(w')) == "" || Recorded(w.log, IdAt(Cur(w'))) || (k.PersistingID? && k.id == IdAt(Cur(w'))))
  {
    if Accepted(p, w, k) {
      AcceptedRecords(p, w, k, inp);
    } else {
      LogKeepsObject(p, w, k, inp);
      KeptObjectRecorded(w.log, Serve(p, w, RequestOf(p, k), inp).0.log);
    }
  }

  lemma KeptObjectRecorded(a: Log, b: Log)
    requires a <= b && |b| <= |a| + 1 && b[|b| - 1].obj == a[|a| - 1].obj && NoSpecID(a)
    ensures NoSpecID(b)
    ensures IdAt(b[|b| - 1]) == "" || Recorded(a, IdAt(b[|b| - 1]))
  {
    if IdAt(a[|a| - 1]) != "" {
      RecordedNow(a);
    }
  }

  lemma LogKeepsObject(p: Params, w: World, k: Worker, inp: Input)
    requires !(WritesObject(RequestOf(p, k)) && Accepted(p, w, k))
    ensures var w' := Serve(p, w, RequestOf(p, k), inp).0;
            w.log <= w'.log && |w'.log| <= |w.log| + 1 && Cur(w').obj == Cur(w).obj
  {
  }

  lemma ServedRecordsRightful(p: Params, w: World, k: Worker, inp: Input)
    requires RecordInv(p, State(w, k))
    ensures var w' := Serve(p, w, RequestOf(p, k), inp).0;
            && NoSpecID(w'.log)
            && (forall id :: Recorded(w'.log, id) ==> Rightful(p, w', id))
            && (forall id :: Made(w'.events, id) ==> id in w'.svc.issued)
  {
    var w' := Serve(p, w, RequestOf(p, k), inp).0;
    ServeGrows(p, w, k, inp);
    ServeRecords(p, w, k, inp);
    RecordedNext(w.log, w'.log);
    forall id | Recorded(w'.log, id) ensures Rightful(p, w', id) {
      StillRightful(p, w, w', id);
    }
  }

  lemma ReplyRightful(p: Params, w: World, k: Worker, inp: Input)
    requires ServiceOK(w.svc) && (k.LookingUp? ==> p.errors.conflictTyped)
    ensures var (w', r) := Serve(p, w, RequestOf(p, k), inp);
            && ((k.CreatingPlane? || k.LookingUp?) && r.PlaneIs? ==> Rightful(p, w', r.plane.id))
            && (k.CreatingPlane? && r.Conflict? ==> p.errors.conflictTyped)
  {
    var (w', r) := Serve(p, w, RequestOf(p, k), inp);
    if k.CreatingPlane? && r.PlaneIs? {
      assert w'.events[|w.events|] == Created(r.plane.id);
    }
  }

  lemma ResumeRightful(p: Params, w: World, k: Worker, r: Reply, inp: Input)
    requires (k.CreatingPlane? || k.LookingUp?) && r.PlaneIs? ==> Rightful(p, w, r.plane.id)
    requires k.CreatingPlane? && r.Conflict? ==> p.errors.conflictTyped
    ensures var k' := Resume(p, k, r, inp);
            && (k'.PersistingID? ==> Rightful(p, w, k'.id))
            && (k'.LookingUp? ==> p.errors.conflictTyped)
  {
  }

  lemma StepRightful(p: Params, s: State, inp: Input)
    requires RecordInv(p, s)
    ensures var s' := Apply(p, s, Request(inp));
            && (s'.k.PersistingID? ==> Rightful(p, s'.w, s'.k.id))
            && (s'.k.LookingUp? ==> p.errors.conflictTyped)
  {
    var (w', r) := Serve(p, s.w, RequestOf(p, s.k), inp);
    ReplyRightful(p, s.w, s.k, inp);
    ResumeRightful(p, w', s.k, r, inp);
    ResumeRightful(p, w', s.k, Unavailable, inp);
    ResumeRightful(p, s.w, s.k, Unavailable, inp);
  }

  lemma RequestKeepsRecords(p: Params, s: State, inp: Input)
    requires RecordInv(p, s)
    ensures RecordInv(p, Apply(p, s, Request(inp)))
    ensures ServiceGrows(p, s.w, Apply(p, s, Request(inp)).w)
  {
    StepKeepsInv(p, s, inp);
    ServeGrows(p, s.w, s.k, inp);
    ServedRecordsRightful(p, s.w, s.k, inp);
    StepRightful(p, s, inp);
  }

  /** Everything else adds no ID: the object has at its end what it had. */
  lemma GrownKeepsRecords(p: Params, s: State, s': State)
    requires RecordInv(p, s) && Inv(s') && NoSpecID(s'.w.log)
    requires s.w.log <= s'.w.log && |s'.w.log| <= |s.w.log| + 1
    requires IdAt(Cur(s'.w)) == "" || IdAt(Cur(s'.w)) == IdAt(Cur(s.w))
    requires Extends(s.w.svc.issued, s'.w.svc.issued) && s'.w.events == s.w.events
    requires s'.k == s.k || Copy(s'.k).None?
    ensures RecordInv(p, s')
  {
    RecordedNext(s.w.log, s'.w.log);
    forall id | Recorded(s'.w.log, id) ensures Rightful(p, s'.w, id) {
      if !Recorded(s.w.log, id) {
        RecordedNow(s.w.log);
      }
    }
  }

  lemma OtherActsShape(p: Params, s: State, l: Label)
    requires Inv(s) && NoSpecID(s.w.log) && !l.Request? && (SetsSpec(l) ==> l.spec.planeID == "")
    ensures var s' := Apply(p, s, l);
            && s.w.log <= s'.w.log && |s'.w.log| <= |s.w.log| + 1 && NoSpecID(s'.w.log)
            && (IdAt(Cur(s'.w)) == "" || IdAt(Cur(s'.w)) == IdAt(Cur(s.w)))
            && Extends(s.w.svc.issued, s'.w.svc.issued) && s'.w.events == s.w.events
            && (s'.k == s.k || Copy(s'.k).None?)
  {
    assert s.w.log[|s.w.log| - 1] == Cur(s.w);
    if ByUser(l) {
      UserStep(p, s, l);
      if Cur(s.w).obj.Some? {
        StoredRecords(s.w, Cur(s.w).obj.value, UserWanted(Cur(s.w).obj.value, l));
      }
    } else if !l.CreateObject? {
      OthersQuiet(p, s, l);
      OthersAppend(p, s, l);
    }
  }

  lemma OthersAppend(p: Params, s: State, l: Label)
    requires Aside(l)
    ensures |Apply(p, s, l).w.log| <= |s.w.log| + 1
  {
  }

  lemma ActKeepsRecords(p: Params, s: State, l: Label)
    requires RecordInv(p, s) && (SetsSpec(l) ==> l.spec.planeID == "")
    ensures RecordInv(p, Apply(p, s, l))
    ensures ServiceGrows(p, s.w, Apply(p, s, l).w)
  {
    if l.Request? {
      RequestKeepsRecords(p, s, l.inp);
    } else {
      ApplyKeepsInv(p, s, l);
      OtherActsShape(p, s, l);
      GrownKeepsRecords(p, s, Apply(p, s, l));
    }
  }

  // ---- The fleet ----

  ghost predicate MadeApart(f: FleetState) {
    forall a, b, id :: a in f.events && b in f.events && Made(f.events[a], id) && Made(f.events[b], id) ==> a == b
  }

  ghost predicate FleetRecords(m: Members, f: FleetState)
    requires Staffed(m, f)
  {
    MadeApart(f) && forall a :: a in m ==> RecordInv(m[a], Project(f, a))
  }

  /** What another object sees of an act: one more snapshot, a grown service. */
  lemma BystanderSees(f: FleetState, a: ObjKey, b: ObjKey, s': State)
    requires a in f.workers && a in f.events && b in f.workers && b in f.events && a != b
    requires Follows(Project(f, a), s')
    ensures var t, t' := Project(f, b), Project(Embed(f, a, s'), b);
            && t'.k == t.k && t'.w.events == t.w.events && t'.w.born == t.w.born
            && t'.w.svc == s'.w.svc && t'.w.rev == s'.w.rev
            && t.w.log <= t'.w.log && |t'.w.log| <= |t.w.log| + 1 && |t'.w.log| - |t.w.log| == t'.w.rev - t.w.rev
            && Cur(t'.w).obj == Cur(t.w).obj
  {
    LogOthers(f, Embed(f, a, s'), a, b, s');
  }

  lemma BystanderKeepsInv(t: State, t': State)
    requires Inv(t) && ServiceOK(t'.w.svc) && t'.k == t.k && t'.w.born == t.w.born
    requires t.w.log <= t'.w.log && |t'.w.log| <= |t.w.log| + 1 && |t'.w.log| - |t.w.log| == t'.w.rev - t.w.rev
    requires Cur(t'.w).obj == Cur(t.w).obj
    ensures Inv(t')
  {
    if t'.w.log != t.w.log {
      CommitKeepsLog(t.w, Cur(t'.w));
      assert t'.w.log == Commit(t.w, Cur(t'.w)).log;
    }
    NextInv(t, t'.w, t'.k);
  }

  lemma BystanderKeepsRecords(q: Params, t: State, t': State)
    requires RecordInv(q, t) && Inv(t') && t'.k == t.k && t'.w.events == t.w.events
    requires t.w.log <= t'.w.log && |t'.w.log| <= |t.w.log| + 1 && Cur(t'.w).obj == Cur(t.w).obj
    requires Extends(t.w.svc.issued, t'.w.svc.issued)
    ensures RecordInv(q, t')
  {
    assert t.w.log[|t.w.log| - 1] == Cur(t.w);
    GrownKeepsRecords(q, t, t');
  }

  lemma ActSpares(m: Members, f: FleetState, a: ObjKey, l: Label, b: ObjKey)
    requires Staffed(m, f) && FleetRecords(m, f) && a in m && b in m
    requires SetsSpec(l) ==> l.spec.planeID == ""
    ensures RecordInv(m[b], Project(FleetApply(m, f, a, l), b))
  {
    var s' := Apply(m[a], Project(f, a), l);
    ActKeepsRecords(m[a], Project(f, a), l);
    if a == b {
      ProjectOwn(m, f, a, l);
    } else {
      Appends(m[a], Project(f, a), l);
      BystanderSees(f, a, b, s');
      BystanderKeepsInv(Project(f, b), Project(Embed(f, a, s'), b));
      BystanderKeepsRecords(m[b], Project(f, b), Project(Embed(f, a, s'), b));
    }
  }

  lemma ActKeepsApart(m: Members, f: FleetState, a: ObjKey, l: Label)
    requires Staffed(m, f) && FleetRecords(m, f) && a in m && (SetsSpec(l) ==> l.spec.planeID == "")
    ensures MadeApart(FleetApply(m, f, a, l))
  {
    var s, s' := Project(f, a), Apply(m[a], Project(f, a), l);
    ActKeepsRecords(m[a], s, l);
    forall b, id | b in f.events && Made(f.events[b], id) ensures id in f.svc.issued {
      assert RecordInv(m[b], Project(f, b));
    }
    ApartGrows(f.events, a, s'.w.events, f.svc.issued.Keys);
  }

  /** New entries of one list that occur in no list. */
  lemma ApartGrows(events: map<ObjKey, seq<Event>>, a: ObjKey, now: seq<Event>, issued: set<string>)
    requires a in events
    requires forall x, y, id :: x in events && y in events && Made(events[x], id) && Made(events[y], id) ==> x == y
    requires forall x, id :: x in events && Made(events[x], id) ==> id in issued
    requires forall id :: Made(now, id) && !Made(events[a], id) ==> id !in issued
    ensures var events' := events[a := now];
            forall x, y, id :: x in events' && y in events' && Made(events'[x], id) && Made(events'[y], id) ==> x == y
  {
  }

  lemma {:induction false} RunKeepsRecords(m: Members, f: FleetState, labels: seq<FleetLabel>)
    requires Staffed(m, f) && FleetRecords(m, f) && FleetGreenRun(labels)
    ensures FleetRecords(m, FleetRun(m, f, labels))
  {
    if labels != [] {
      var before, l := labels[..|labels| - 1], labels[|labels| - 1];
      assert l in labels;
      RunKeepsRecords(m, f, before);
      var g := FleetRun(m, f, before);
      FleetSnoc(m, f, labels);
      if l.member in m {
        ActKeepsApart(m, g, l.member, l.act);
        forall b | b in m ensures RecordInv(m[b], Project(FleetApply(m, g, l.member, l.act), b)) {
          ActSpares(m, g, l.member, l.act, b);
        }
      }
    }
  }

  lemma StartRecords(m: Members, f: FleetState)
    requires Staffed(m, f)
    requires forall a :: a in m ==> Init(Project(f, a)) && GreenStart(Project(f, a))
    ensures FleetRecords(m, f)
  {
    forall a | a in m ensures RecordInv(m[a], Project(f, a)) && f.events[a] == [] {
      InitRecords(m[a], Project(f, a));
    }
  }

  lemma InitRecords(p: Params, s: State)
    requires Init(s) && GreenStart(s)
    ensures RecordInv(p, s) && s.w.events == []
  {
    InitInv(s);
    assert s.w.log[|s.w.log| - 1] == Cur(s.w);
  }

  lemma RecordsApart(p: Params, q: Params, s: State, t: State, id: string)
    requires RecordInv(p, s) && RecordInv(q, t) && s.w.svc == t.w.svc
    requires Recorded(s.w.log, id) && Recorded(t.w.log, id)
    ensures p.name == q.name
    ensures !p.errors.conflictTyped ==> Made(s.w.events, id)
    ensures !q.errors.conflictTyped ==> Made(t.w.events, id)
  {
  }

  /** No two objects ever record the same plane, if their names differ, or if the
      client of neither types the 409; whatever else is in the fleet, and
      whenever its objects are created. */
  lemma NoSharedPlane(m: Members, f: FleetState, labels: seq<FleetLabel>, a: ObjKey, b: ObjKey, id: string)
    requires Staffed(m, f) && FleetGreenRun(labels)
    requires forall c :: c in m ==> Init(Project(f, c)) && GreenStart(Project(f, c))
    requires a in m && b in m && a != b
    requires m[a].name != m[b].name || (!m[a].errors.conflictTyped && !m[b].errors.conflictTyped)
    ensures var g := FleetRun(m, f, labels);
            !(Recorded(LogFor(g.log, a), id) && Recorded(LogFor(g.log, b), id))
  {
    StartRecords(m, f);
    RunKeepsRecords(m, f, labels);
    var g := FleetRun(m, f, labels);
    if Recorded(LogFor(g.log, a), id) && Recorded(LogFor(g.log, b), id) {
      RecordsApart(m[a], m[b], Project(g, a), Project(g, b), id);
    }
  }

  // ---- When two objects do share a plane ----

  /** A reconcile that has nothing on record takes over whatever plane bears its
      object's name. */
  lemma AdoptsByName(p: Params, s: State, id: string, inp: Input)
    requires ServiceOK(s.w.svc) && s.k.CreatingPlane? && Cur(s.w).obj == Some(s.k.ncp)
    requires s.k.ncp.status.planeID == "" && Survives(s.k.ncp).Some? && Own(p, s.w.svc) == Some(id)
    requires p.errors.conflictTyped && inp.outcome == Success
    ensures var s1 := Apply(p, s, Request(inp));
            var s2 := Apply(p, s1, Request(inp));
            var s3 := Apply(p, s2, Request(inp));
            IdAt(Cur(s3.w)) == id
  {
    var s1 := Apply(p, s, Request(inp));
    assert s1 == State(Note(s.w, CreateConflict), LookingUp(s.k.ncp));
    var s2 := Apply(p, s1, Request(inp));
    assert s2 == State(s1.w, PersistingID(s.k.ncp, id));
  }

  lemma EmbedKeepsOthers(f: FleetState, a: ObjKey, b: ObjKey, s': State)
    requires a in f.workers && a in f.events && b in f.workers && b in f.events && a != b
    requires Follows(Project(f, a), s')
    ensures Cur(Project(Embed(f, a, s'), b).w).obj == Cur(Project(f, b).w).obj
  {
    LogOthers(f, Embed(f, a, s'), a, b, s');
  }

  lemma ObjectsOfOthers(m: Members, f: FleetState, a: ObjKey, l: Label, b: ObjKey)
    requires Staffed(m, f) && a in m && b in m && a != b
    ensures Cur(Project(FleetApply(m, f, a, l), b).w).obj == Cur(Project(f, b).w).obj
  {
    Appends(m[a], Project(f, a), l);
    EmbedKeepsOthers(f, a, b, Apply(m[a], Project(f, a), l));
  }

  lemma OwnAndOthers(m: Members, f: FleetState, a: ObjKey, l: Label, b: ObjKey)
    requires Staffed(m, f) && a in m && b in m && a != b
    ensures Project(FleetApply(m, f, a, l), a) == Apply(m[a], Project(f, a), l)
    ensures Cur(Project(FleetApply(m, f, a, l), b).w).obj == Cur(Project(f, b).w).obj
  {
    ProjectOwn(m, f, a, l);
    ObjectsOfOthers(m, f, a, l, b);
  }

  lemma ThreeActs(m: Members, f: FleetState, a: ObjKey, l: Label, b: ObjKey)
    requires Staffed(m, f) && a in m && b in m && a != b
    ensures var f1 := FleetApply(m, f, a, l);
            var f2 := FleetApply(m, f1, a, l);
            var f3 := FleetApply(m, f2, a, l);
            && Project(f3, a) == Apply(m[a], Apply(m[a], Apply(m[a], Project(f, a), l), l), l)
            && Cur(Project(f3, b).w).obj == Cur(Project(f, b).w).obj
  {
    var f1 := FleetApply(m, f, a, l);
    var f2 := FleetApply(m, f1, a, l);
    OwnAndOthers(m, f, a, l, b);
    OwnAndOthers(m, f1, a, l, b);
    OwnAndOthers(m, f2, a, l, b);
  }

  /** The converse of NoSharedPlane: of two objects of one name, in different
      namespaces, a later one whose client types the 409 records the plane of the
      earlier one. */
  lemma SharedNameSharesPlane(m: Members, f: FleetState, a: ObjKey, b: ObjKey, id: string, inp: Input)
    requires Staffed(m, f) && a in m && b in m && a != b && m[a].name == m[b].name
    requires IdAt(Cur(Project(f, a).w)) == id && Own(m[b], f.svc) == Some(id) && ServiceOK(f.svc)
    requires var s := Project(f, b);
             && s.k.CreatingPlane? && Cur(s.w).obj == Some(s.k.ncp) && s.k.ncp.status.planeID == ""
             && Survives(s.k.ncp).Some?
    requires m[b].errors.conflictTyped && inp.outcome == Success
    ensures var f1 := FleetApply(m, f, b, Request(inp));
            var f2 := FleetApply(m, f1, b, Request(inp));
            var f3 := FleetApply(m, f2, b, Request(inp));
            IdAt(Cur(Project(f3, a).w)) == id && IdAt(Cur(Project(f3, b).w)) == id
  {
    ThreeActs(m, f, b, Request(inp), a);
    AdoptsByName(m[b], Project(f, b), id, inp);
  }
}
