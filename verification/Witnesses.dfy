/** Families of runs that show where a guarantee ends. */
module Witnesses {
  import opened Domain
  import opened Stores
  import opened Controller
  import opened Runs
  import opened Writes

  // ---- A plane that outlives its object ----

  const OK := Input(Success, 0, Proceed, "", [])
  const LOST := Input(ReplyLost, 0, Proceed, "", [])

  /** A first reconcile whose creation takes effect while its reply is lost. */
  const CREATION_LOST := [Start, Request(OK), Request(OK), Request(OK), Request(LOST)]

  /** A deletion request and an undisturbed reconcile. */
  const THEN_DELETED := [RequestDelete, Start, Request(OK), Request(OK), Request(OK), Request(OK)]

  /** Any object with its finalizer on, nothing recorded and a free name. */
  ghost predicate AboutToCreate(p: Params, s: State, o: ControlPlane, d: Draft) {
    && Stopped(s.k) && Cur(s.w).obj == Some(o) && s.w.svc.next == Some(d) && p.name !in s.w.svc.names
    && o.finalizer && !o.deleting && o.status.planeID == "" && o.spec.planeID == ""
  }

  function AfterLostCreation(p: Params, s: State, o: ControlPlane, d: Draft): State {
    State(Note(s.w.(svc := WithPlane(s.w.svc, d, p.name, o.spec.version)), Created(d.id)), Done(Failed))
  }

  lemma CreationLost(p: Params, s: State, o: ControlPlane, d: Draft)
    requires AboutToCreate(p, s, o, d)
    ensures Run(p, s, CREATION_LOST) == AfterLostCreation(p, s, o, d)
  {
    var s1 := s.(k := Reading);
    var s2 := s.(k := CheckingOwner(o));
    var s3 := s.(k := Authenticating(o));
    var s4 := s.(k := CreatingPlane(o));
    assert Apply(p, s1, Request(OK)) == s2;
    assert Apply(p, s2, Request(OK)) == s3;
    assert Apply(p, s3, Request(OK)) == s4;
    assert Apply(p, s4, Request(LOST)) == AfterLostCreation(p, s, o, d);
    RunNext(p, s, CREATION_LOST, 0, s1);
    RunNext(p, s1, CREATION_LOST, 1, s2);
    RunNext(p, s2, CREATION_LOST, 2, s3);
    RunNext(p, s3, CREATION_LOST, 3, s4);
    RunNext(p, s4, CREATION_LOST, 4, AfterLostCreation(p, s, o, d));
  }

  lemma Removal(p: Params, s: State, n: ControlPlane)
    requires Stopped(s.k) && Cur(s.w).obj == Some(n) && n.finalizer && n.deleting && n.status.planeID == ""
    ensures Run(p, s, THEN_DELETED[1..]) == Apply(p, s.(k := RemovingFinalizer(n)), Request(OK))
  {
    var s2, s3, s4, s5 := s.(k := Reading), s.(k := CheckingOwner(n)), s.(k := Authenticating(n)), s.(k := RemovingFinalizer(n));
    RunNext(p, s, THEN_DELETED, 1, s2);
    RunNext(p, s2, THEN_DELETED, 2, s3);
    RunNext(p, s3, THEN_DELETED, 3, s4);
    RunNext(p, s4, THEN_DELETED, 4, s5);
    RunNext(p, s5, THEN_DELETED, 5, Apply(p, s5, Request(OK)));
  }

  lemma Removed(p: Params, s: State)
    requires s.k.RemovingFinalizer? && Cur(s.w).obj == Some(s.k.ncp)
    requires s.k.ncp.finalizer && s.k.ncp.deleting && !s.k.ncp.otherFinalizers
    ensures var t := Apply(p, s, Request(OK));
            Cur(t.w).obj.None? && t.w.svc == s.w.svc
  {
  }

  lemma DeletedUnrecorded(p: Params, s: State, o: ControlPlane)
    requires Stopped(s.k) && Cur(s.w).obj == Some(o) && o.finalizer && !o.deleting && !o.otherFinalizers
    requires o.status.planeID == ""
    ensures var t := Run(p, s, THEN_DELETED);
            Cur(t.w).obj.None? && t.w.svc == s.w.svc
  {
    var n := o.(deleting := true, rv := s.w.rev + 1);
    var s1 := s.(w := Commit(s.w, Cur(s.w).(obj := Some(n))));
    RunNext(p, s, THEN_DELETED, 0, s1);
    Removal(p, s1, n);
    Removed(p, s1.(k := RemovingFinalizer(n)));
    assert THEN_DELETED[0..] == THEN_DELETED;
  }

  /** Whatever the starting point: if the creation's reply is lost and the object
      is then deleted, the object goes and its plane stays. */
  lemma PlaneOutlivesObject(p: Params, s: State, o: ControlPlane, d: Draft)
    requires AboutToCreate(p, s, o, d) && !o.otherFinalizers
    ensures var t := Run(p, Run(p, s, CREATION_LOST), THEN_DELETED);
            && Cur(t.w).obj.None?
            && d.id in t.w.svc.planes && t.w.svc.planes[d.id].plane.name == p.name
  {
    CreationLost(p, s, o, d);
    DeletedUnrecorded(p, AfterLostCreation(p, s, o, d), o);
  }
}
