/** Any number of objects reconciled against the same cluster and the same
    service account. Seen from each object, a run of the fleet is a run of that
    object alone, so everything proved of one object holds of all of them. */
module Fleet {
  import opened Domain
  import opened Stores
  import opened Controller
  import opened Runs
  import opened Safety
  import opened Greenfield

  datatype ObjKey = ObjKey(namespace: string, name: string)

  datatype FleetSnapshot = FleetSnapshot(objs: map<ObjKey, ControlPlane>, secrets: map<SecretKey, Secret>)

  type FleetLog = s: seq<FleetSnapshot> | |s| > 0 witness [FleetSnapshot(map[], map[])]

  datatype FleetState = FleetState(
    rev: nat,
    log: FleetLog,
    svc: Service,
    workers: map<ObjKey, Worker>,
    events: map<ObjKey, seq<Event>>,
    born: map<ObjKey, nat>)

  type Members = map<ObjKey, Params>

  ghost predicate Staffed(m: Members, f: FleetState) {
    f.workers.Keys == m.Keys && f.events.Keys == m.Keys
  }

  /** Object names (whatever their namespaces, since planes are named after the
      bare object name) and owner clusters are pairwise distinct. */
  ghost predicate Apart(m: Members) {
    forall a, b :: a in m && b in m && a != b ==> m[a].name != m[b].name && m[a].cluster != m[b].cluster
  }

  function SnapshotFor(c: FleetSnapshot, a: ObjKey): Snapshot {
    Snapshot(Lookup(c.objs, a), c.secrets)
  }

  function LogFor(log: FleetLog, a: ObjKey): Log {
    seq(|log|, i requires 0 <= i < |log| => SnapshotFor(log[i], a))
  }

  /** The fleet as one of its objects sees it. */
  function Project(f: FleetState, a: ObjKey): State
    requires a in f.workers && a in f.events
  {
    State(World(f.rev, LogFor(f.log, a), f.svc, f.events[a], Lookup(f.born, a)), f.workers[a])
  }

  function Put<V>(m: map<ObjKey, V>, a: ObjKey, v: Option<V>): map<ObjKey, V> {
    if v.Some? then m[a := v.value] else m - {a}
  }

  /** Writes the new state of one object back into the fleet. */
  function Embed(f: FleetState, a: ObjKey, s: State): FleetState {
    FleetState(
      s.w.rev,
      if |s.w.log| == |f.log| then f.log
      else f.log + [FleetSnapshot(Put(f.log[|f.log| - 1].objs, a, Cur(s.w).obj), Cur(s.w).secrets)],
      s.w.svc,
      f.workers[a := s.k],
      f.events[a := s.w.events],
      Put(f.born, a, s.w.born))
  }

  /** Something happens at one object: a request of its reconcile, a user
      action, or (through any member) a change at the service. */
  ghost function FleetApply(m: Members, f: FleetState, a: ObjKey, l: Label): FleetState
    requires Staffed(m, f)
  {
    if a !in m then f else Embed(f, a, Apply(m[a], Project(f, a), l))
  }

  datatype FleetLabel = At(member: ObjKey, act: Label)

  ghost function FleetRun(m: Members, f: FleetState, labels: seq<FleetLabel>): (r: FleetState)
    requires Staffed(m, f)
    ensures Staffed(m, r)
  {
    if labels == [] then f
    else
      var l := labels[|labels| - 1];
      FleetApply(m, FleetRun(m, f, labels[..|labels| - 1]), l.member, l.act)
  }

  // ---- The acting object ----

  lemma Appends(p: Params, s: State, l: Label)
    ensures Follows(s, Apply(p, s, l))
  {
  }

  lemma ProjectOwn(m: Members, f: FleetState, a: ObjKey, l: Label)
    requires Staffed(m, f) && a in m
    ensures Project(FleetApply(m, f, a, l), a) == Apply(m[a], Project(f, a), l)
  {
    var s, s' := Project(f, a), Apply(m[a], Project(f, a), l);
    Appends(m[a], s, l);
    var f' := FleetApply(m, f, a, l);
    assert LogFor(f'.log, a) == s'.w.log;
  }

  // ---- What one object's requests leave alone ----

  ghost predicate Guarantee(p: Params, w: World, w': World) {
    && ServiceOK(w'.svc)
    && (forall key :: key != KubeconfigKey(p.cluster) && key != CaKey(p.cluster) ==>
          Lookup(Cur(w').secrets, key) == Lookup(Cur(w).secrets, key))
    && (forall n :: n != p.name ==> Lookup(w'.svc.names, n) == Lookup(w.svc.names, n))
    && (forall id :: id in w.svc.issued && w.svc.issued[id] != p.name ==>
          Lookup(w'.svc.planes, id) == Lookup(w.svc.planes, id))
    && Extends(w.svc.issued, w'.svc.issued)
    && (forall id :: id in w'.svc.issued && id !in w.svc.issued ==> w'.svc.issued[id] == p.name)
  }

  lemma SecretsGuarantee(p: Params, w: World, k: Worker, inp: Input)
    ensures var w' := Serve(p, w, RequestOf(p, k), inp).0;
            forall key :: key != KubeconfigKey(p.cluster) && key != CaKey(p.cluster) ==>
              Lookup(Cur(w').secrets, key) == Lookup(Cur(w).secrets, key)
  {
  }

  lemma OtherCallsKeepService(p: Params, w: World, c: Call, inp: Input)
    requires !WritesPlane(c)
    ensures var w' := Serve(p, w, c, inp).0;
            w'.svc == w.svc && w'.events == w.events
  {
  }

  /** In a greenfield run the planes a reconcile upgrades or deletes carry its
      object's name. */
  lemma PlaneCallGuarantee(p: Params, w: World, c: Call, inp: Input)
    requires ServiceOK(w.svc)
    requires c.CreatePlane? ==> c.name == p.name
    requires (c.UpdatePlane? || c.DeletePlane?) && c.id in w.svc.planes ==> w.svc.issued[c.id] == p.name
    requires WritesPlane(c)
    ensures var w' := Serve(p, w, c, inp).0;
            && Cur(w') == Cur(w)
            && (forall n :: n != p.name ==> Lookup(w'.svc.names, n) == Lookup(w.svc.names, n))
            && (forall id :: id in w.svc.issued && w.svc.issued[id] != p.name ==>
                  Lookup(w'.svc.planes, id) == Lookup(w.svc.planes, id))
            && Extends(w.svc.issued, w'.svc.issued)
            && (forall id :: id in w'.svc.issued && id !in w.svc.issued ==> w'.svc.issued[id] == p.name)
  {
  }

  lemma PlaneCallsAreOwn(p: Params, w: World, k: Worker)
    requires GreenInv(p, State(w, k)) && WritesPlane(RequestOf(p, k))
    ensures var c := RequestOf(p, k);
            && (c.CreatePlane? ==> c.name == p.name)
            && ((c.UpdatePlane? || c.DeletePlane?) && c.id in w.svc.planes ==> w.svc.issued[c.id] == p.name)
  {
    CopyHistory(p, w, Copy(k).value);
  }

  lemma ServeGuarantee(p: Params, w: World, k: Worker, inp: Input)
    requires GreenInv(p, State(w, k))
    ensures Guarantee(p, w, Serve(p, w, RequestOf(p, k), inp).0)
  {
    ServeKeepsStores(p, w, k, inp);
    SecretsGuarantee(p, w, k, inp);
    if WritesPlane(RequestOf(p, k)) {
      PlaneCallsAreOwn(p, w, k);
      PlaneCallGuarantee(p, w, RequestOf(p, k), inp);
    } else {
      OtherCallsKeepService(p, w, RequestOf(p, k), inp);
    }
  }

  // ---- The other objects ----

  /** Acts that every object sees as what they are. */
  predicate Shared(l: Label) {
    l.PlaneChange? || l.Draw? || l.SecretEdit?
  }

  /** How an act at one object looks from another. */
  ghost function SeenFrom(s: State, s': State, l: Label): Label {
    if Shared(l) then l
    else Foreign(Change(Cur(s'.w).secrets, s'.w.svc, |s'.w.log| > |s.w.log|))
  }

  lemma ActGuarantee(p: Params, s: State, l: Label)
    requires GreenInv(p, s) && !Shared(l) && !l.Foreign?
    ensures Guarantee(p, s.w, Apply(p, s, l).w)
  {
    if l.Request? {
      ServeGuarantee(p, s.w, s.k, l.inp);
    } else if ByUser(l) {
      UserStep(p, s, l);
    }
  }

  /** What one object guarantees is what any other relies on. */
  lemma GuaranteeIsRely(p: Params, q: Params, w: World, w': World, v: World)
    requires Guarantee(p, w, w') && ServiceOK(w.svc) && ServiceOK(v.svc)
    requires v.svc == w.svc && Cur(v).secrets == Cur(w).secrets
    requires p.name != q.name && p.cluster != q.cluster
    requires w'.log == w.log || |w'.log| > |w.log|
    ensures Rely(q, v, Change(Cur(w').secrets, w'.svc, |w'.log| > |w.log|))
  {
    SecretKeysApart(p.cluster, q.cluster);
    SecretKeysApart(q.cluster, p.cluster);
    if q.name in w.svc.names {
      var id := w.svc.names[q.name];
      assert id in w.svc.planes && w.svc.issued[id] == q.name;
    }
  }

  lemma LogOthers(f: FleetState, f': FleetState, a: ObjKey, b: ObjKey, s': State)
    requires a != b && f' == Embed(f, a, s') && LogFor(f.log, a) <= s'.w.log && |s'.w.log| <= |f.log| + 1
    ensures LogFor(f'.log, b) ==
            if |s'.w.log| == |f.log| then LogFor(f.log, b)
            else LogFor(f.log, b) + [Snapshot(Lookup(f.log[|f.log| - 1].objs, b), Cur(s'.w).secrets)]
  {
  }

  ghost predicate Follows(s: State, s': State) {
    && s.w.log <= s'.w.log
    && |s'.w.log| - |s.w.log| == s'.w.rev - s.w.rev <= 1
    && (s'.w.log == s.w.log ==> Cur(s'.w) == Cur(s.w))
  }

  /** An act elsewhere, written back into the fleet, is a foreign change here. */
  lemma EmbedForeign(q: Params, f: FleetState, a: ObjKey, b: ObjKey, s': State)
    requires a in f.workers && b in f.workers && a in f.events && b in f.events && a != b
    requires Follows(Project(f, a), s')
    requires var c := Change(Cur(s'.w).secrets, s'.w.svc, |s'.w.log| > |f.log|);
             Rely(q, Project(f, b).w, c)
    ensures var c := Change(Cur(s'.w).secrets, s'.w.svc, |s'.w.log| > |f.log|);
            Project(Embed(f, a, s'), b) == Apply(q, Project(f, b), Foreign(c))
  {
    LogOthers(f, Embed(f, a, s'), a, b, s');
    ForeignAct(q, Project(f, b), Change(Cur(s'.w).secrets, s'.w.svc, |s'.w.log| > |f.log|));
  }

  lemma ForeignAct(p: Params, s: State, c: Change)
    requires Rely(p, s.w, c)
    ensures Apply(p, s, Foreign(c)) ==
            State(World(if c.commits then s.w.rev + 1 else s.w.rev,
                        if c.commits then s.w.log + [Snapshot(Cur(s.w).obj, c.secrets)] else s.w.log,
                        c.svc, s.w.events, s.w.born), s.k)
  {
  }

  lemma EmbedShared(p: Params, q: Params, f: FleetState, a: ObjKey, b: ObjKey, l: Label)
    requires a in f.workers && b in f.workers && a in f.events && b in f.events && a != b && Shared(l)
    ensures Project(Embed(f, a, Apply(p, Project(f, a), l)), b) == Apply(q, Project(f, b), l)
  {
    var s := Project(f, a);
    Appends(p, s, l);
    LogOthers(f, Embed(f, a, Apply(p, s, l)), a, b, Apply(p, s, l));
    SharedAct(p, q, s, Project(f, b), l);
  }

  lemma OtherSees(p: Params, q: Params, f: FleetState, a: ObjKey, b: ObjKey, s': State, l: Label)
    requires a in f.workers && b in f.workers && a in f.events && b in f.events && a != b
    requires Follows(Project(f, a), s') && Guarantee(p, Project(f, a).w, s'.w) && ServiceOK(f.svc)
    requires p.name != q.name && p.cluster != q.cluster && !Shared(l)
    ensures Project(Embed(f, a, s'), b) == Apply(q, Project(f, b), SeenFrom(Project(f, a), s', l))
  {
    GuaranteeIsRely(p, q, Project(f, a).w, s'.w, Project(f, b).w);
    EmbedForeign(q, f, a, b, s');
  }

  lemma ProjectOther(m: Members, f: FleetState, a: ObjKey, l: Label, b: ObjKey)
    requires Staffed(m, f) && Apart(m) && a in m && b in m && a != b && !l.Foreign?
    requires GreenInv(m[a], Project(f, a))
    ensures Project(FleetApply(m, f, a, l), b) == Apply(m[b], Project(f, b), SeenAs(m, f, a, l, b))
  {
    var s := Project(f, a);
    if Shared(l) {
      EmbedShared(m[a], m[b], f, a, b, l);
    } else {
      Appends(m[a], s, l);
      ActGuarantee(m[a], s, l);
      OtherSees(m[a], m[b], f, a, b, Apply(m[a], s, l), l);
    }
  }

  /** An act at object a as object b sees it. */
  ghost function SeenAs(m: Members, f: FleetState, a: ObjKey, l: Label, b: ObjKey): Label
    requires Staffed(m, f) && a in m
  {
    if a == b then l else SeenFrom(Project(f, a), Apply(m[a], Project(f, a), l), l)
  }

  lemma SeenIsGreen(m: Members, f: FleetState, a: ObjKey, l: Label, b: ObjKey)
    requires Staffed(m, f) && a in m && (SetsSpec(l) ==> l.spec.planeID == "")
    ensures SetsSpec(SeenAs(m, f, a, l, b)) ==> SeenAs(m, f, a, l, b).spec.planeID == ""
  {
  }

  /** A change at the service or of a secret is the same act for everybody. */
  lemma SharedAct(p: Params, q: Params, s: State, t: State, l: Label)
    requires Shared(l) && t.w.svc == s.w.svc && Cur(t.w).secrets == Cur(s.w).secrets && t.w.rev == s.w.rev
    requires |t.w.log| == |s.w.log|
    ensures var s', t' := Apply(p, s, l), Apply(q, t, l);
            && t'.k == t.k && t'.w.events == t.w.events && t'.w.born == t.w.born && t'.w.svc == s'.w.svc && t'.w.rev == s'.w.rev
            && |t'.w.log| == |s'.w.log|
            && t'.w.log == if |s'.w.log| == |s.w.log| then t.w.log
                           else t.w.log + [Snapshot(Cur(t.w).obj, Cur(s'.w).secrets)]
  {
  }

  // ---- Whole runs ----

  ghost predicate FleetGreen(m: Members, f: FleetState)
    requires Staffed(m, f)
  {
    forall a :: a in m ==> GreenInv(m[a], Project(f, a))
  }

  /** Each object is fresh at its own creation: at the start it has just been
      created or is not there yet. Creations are acts of the run like others. */
  lemma FleetStart(m: Members, f: FleetState)
    requires Staffed(m, f)
    requires forall a :: a in m ==> Init(Project(f, a)) && GreenStart(Project(f, a))
    ensures FleetGreen(m, f)
  {
    forall a | a in m ensures GreenInv(m[a], Project(f, a)) {
      InitGreen(m[a], Project(f, a));
    }
  }

  /** Nobody sets spec.planeID, and everything that happens happens at a member. */
  ghost predicate FleetGreenRun(labels: seq<FleetLabel>) {
    forall l :: l in labels ==> !l.act.Foreign? && (SetsSpec(l.act) ==> l.act.spec.planeID == "")
  }

  /** One act of the fleet as one object sees it; nothing happens at strangers. */
  ghost function SeenBy(m: Members, f: FleetState, l: FleetLabel, b: ObjKey): seq<Label>
    requires Staffed(m, f)
  {
    if l.member in m then [SeenAs(m, f, l.member, l.act, b)] else []
  }

  /** The run of one object that a run of the fleet amounts to. */
  ghost function LabelsFor(m: Members, f: FleetState, labels: seq<FleetLabel>, b: ObjKey): seq<Label>
    requires Staffed(m, f)
  {
    if labels == [] then []
    else
      var before := labels[..|labels| - 1];
      LabelsFor(m, f, before, b) + SeenBy(m, FleetRun(m, f, before), labels[|labels| - 1], b)
  }

  lemma FleetStep(m: Members, f: FleetState, a: ObjKey, l: Label, b: ObjKey)
    requires Staffed(m, f) && Apart(m) && a in m && b in m && !l.Foreign?
    requires GreenInv(m[a], Project(f, a))
    ensures Project(FleetApply(m, f, a, l), b) == Apply(m[b], Project(f, b), SeenAs(m, f, a, l, b))
  {
    if a == b {
      ProjectOwn(m, f, a, l);
    } else {
      ProjectOther(m, f, a, l, b);
    }
  }

  lemma FleetStepGreen(m: Members, f: FleetState, a: ObjKey, l: Label, b: ObjKey)
    requires Staffed(m, f) && Apart(m) && a in m && b in m
    requires GreenInv(m[a], Project(f, a)) && GreenInv(m[b], Project(f, b))
    requires !l.Foreign? && (SetsSpec(l) ==> l.spec.planeID == "")
    ensures GreenInv(m[b], Project(FleetApply(m, f, a, l), b))
  {
    FleetStep(m, f, a, l, b);
    SeenIsGreen(m, f, a, l, b);
    ApplyKeepsGreen(m[b], Project(f, b), SeenAs(m, f, a, l, b));
  }

  lemma {:induction false} RunKeepsFleetGreen(m: Members, f: FleetState, labels: seq<FleetLabel>)
    requires Staffed(m, f) && Apart(m) && FleetGreen(m, f) && FleetGreenRun(labels)
    ensures FleetGreen(m, FleetRun(m, f, labels))
  {
    if labels != [] {
      var before, l := labels[..|labels| - 1], labels[|labels| - 1];
      assert l in labels;
      RunKeepsFleetGreen(m, f, before);
      if l.member in m {
        forall b | b in m ensures GreenInv(m[b], Project(FleetRun(m, f, labels), b)) {
          FleetStepGreen(m, FleetRun(m, f, before), l.member, l.act, b);
        }
      }
    }
  }

  lemma FleetSnoc(m: Members, f: FleetState, labels: seq<FleetLabel>)
    requires Staffed(m, f) && labels != []
    ensures var before, l := labels[..|labels| - 1], labels[|labels| - 1];
            FleetRun(m, f, labels) == FleetApply(m, FleetRun(m, f, before), l.member, l.act)
  {
  }

  ghost predicate RunsAlone(m: Members, f: FleetState, g: FleetState, b: ObjKey, labels: seq<Label>)
    requires Staffed(m, f) && Staffed(m, g) && b in m
  {
    Project(g, b) == Run(m[b], Project(f, b), labels)
  }

  lemma SeenNext(m: Members, g: FleetState, l: FleetLabel, b: ObjKey, s: State, labels: seq<Label>)
    requires Staffed(m, g) && Apart(m) && b in m && Project(g, b) == Run(m[b], s, labels)
    requires l.member in m && !l.act.Foreign? && GreenInv(m[l.member], Project(g, l.member))
    ensures Project(FleetApply(m, g, l.member, l.act), b) == Run(m[b], s, labels + [SeenAs(m, g, l.member, l.act, b)])
  {
    FleetStep(m, g, l.member, l.act, b);
    RunSnoc(m[b], s, labels, SeenAs(m, g, l.member, l.act, b));
  }

  lemma RunsOnAlone(m: Members, f: FleetState, g: FleetState, l: FleetLabel, b: ObjKey, labels: seq<Label>)
    requires Staffed(m, f) && Staffed(m, g) && Apart(m) && b in m && RunsAlone(m, f, g, b, labels)
    requires l.member in m ==> !l.act.Foreign? && GreenInv(m[l.member], Project(g, l.member))
    ensures RunsAlone(m, f, FleetApply(m, g, l.member, l.act), b, labels + SeenBy(m, g, l, b))
  {
    if l.member in m {
      SeenNext(m, g, l, b, Project(f, b), labels);
    } else {
      assert labels + SeenBy(m, g, l, b) == labels;
    }
  }

  /** Non-interference: what an object goes through in the fleet is a run of
      that object alone. */
  lemma {:induction false} NonInterference(m: Members, f: FleetState, labels: seq<FleetLabel>, b: ObjKey)
    requires Staffed(m, f) && Apart(m) && FleetGreen(m, f) && FleetGreenRun(labels) && b in m
    ensures RunsAlone(m, f, FleetRun(m, f, labels), b, LabelsFor(m, f, labels, b))
  {
    if labels != [] {
      var before, l := labels[..|labels| - 1], labels[|labels| - 1];
      assert l in labels;
      NonInterference(m, f, before, b);
      RunKeepsFleetGreen(m, f, before);
      RunsOnAlone(m, f, FleetRun(m, f, before), l, b, LabelsFor(m, f, before, b));
      FleetSnoc(m, f, labels);
    }
  }

  /** That run is greenfield, so the results about single objects apply to it. */
  lemma {:induction false} GreenInFleet(m: Members, f: FleetState, labels: seq<FleetLabel>, b: ObjKey)
    requires Staffed(m, f) && FleetGreenRun(labels)
    ensures GreenRun(LabelsFor(m, f, labels, b))
  {
    if labels != [] {
      var before, l := labels[..|labels| - 1], labels[|labels| - 1];
      assert l in labels;
      GreenInFleet(m, f, before, b);
      if l.member in m {
        SeenIsGreen(m, FleetRun(m, f, before), l.member, l.act, b);
      }
    }
  }

  /** The reads of an object are in the fleet as fresh as alone. */
  ghost predicate FleetFresh(labels: seq<FleetLabel>) {
    forall l :: l in labels && l.act.Request? ==> l.act.inp.lag == 0
  }

  lemma {:induction false} FreshInFleet(m: Members, f: FleetState, labels: seq<FleetLabel>, b: ObjKey)
    requires Staffed(m, f) && FleetFresh(labels)
    ensures FreshReads(LabelsFor(m, f, labels, b))
  {
    if labels != [] {
      var before, l := labels[..|labels| - 1], labels[|labels| - 1];
      assert l in labels;
      FreshInFleet(m, f, before, b);
    }
  }

  /** An act at one object leaves object, plane and secrets of every other one
      as they are, unless it is a change of that very plane or secret. */
  lemma ActsStayLocal(m: Members, f: FleetState, l: FleetLabel, b: ObjKey)
    requires Staffed(m, f) && Apart(m) && FleetGreen(m, f) && b in m && l.member in m && l.member != b
    requires !Shared(l.act) && !l.act.Foreign?
    ensures var s, s' := Project(f, b), Project(FleetApply(m, f, l.member, l.act), b);
            && Cur(s'.w).obj == Cur(s.w).obj && s'.k == s.k && s'.w.events == s.w.events
            && Own(m[b], s'.w.svc) == Own(m[b], s.w.svc)
            && (Own(m[b], s.w.svc).Some? ==>
                  Lookup(s'.w.svc.planes, Own(m[b], s.w.svc).value) == Lookup(s.w.svc.planes, Own(m[b], s.w.svc).value))
            && Lookup(Cur(s'.w).secrets, KubeconfigKey(m[b].cluster)) == Lookup(Cur(s.w).secrets, KubeconfigKey(m[b].cluster))
            && Lookup(Cur(s'.w).secrets, CaKey(m[b].cluster)) == Lookup(Cur(s.w).secrets, CaKey(m[b].cluster))
  {
    var a := l.member;
    ProjectOther(m, f, a, l.act, b);
    ForeignStaysAway(m[b], Project(f, b), SeenAs(m, f, a, l.act, b));
  }

  lemma ForeignStaysAway(p: Params, s: State, l: Label)
    requires l.Foreign?
    ensures var s' := Apply(p, s, l);
            && Cur(s'.w).obj == Cur(s.w).obj && s'.k == s.k && s'.w.events == s.w.events
            && Own(p, s'.w.svc) == Own(p, s.w.svc)
            && (Own(p, s.w.svc).Some? ==>
                  Lookup(s'.w.svc.planes, Own(p, s.w.svc).value) == Lookup(s.w.svc.planes, Own(p, s.w.svc).value))
            && Lookup(Cur(s'.w).secrets, KubeconfigKey(p.cluster)) == Lookup(Cur(s.w).secrets, KubeconfigKey(p.cluster))
            && Lookup(Cur(s'.w).secrets, CaKey(p.cluster)) == Lookup(Cur(s.w).secrets, CaKey(p.cluster))
  {
  }
}
