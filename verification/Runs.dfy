/** Runs of one controller object: its reconciles cut into requests, crashes,
    user actions, service-side changes and the work of everybody else. */
module Runs {
  import opened Domain
  import opened Stores
  import opened Controller

  datatype State = State(w: World, k: Worker)

  /** What somebody else did to the shared stores. */
  datatype Change = Change(secrets: map<SecretKey, Secret>, svc: Service, commits: bool)

  datatype Label =
    | Request(inp: Input)
    | Start
    | Crash
    | CreateObject(finalizer: bool, others: bool, spec: Spec)
    | Edit(spec: Spec)
    | RequestDelete
    | SetOtherFinalizers(on: bool)
    | PlaneChange(id: string, status: string, version: string, endpoint: Endpoint, kubeconfig: Bytes)
    | Draw(draft: Draft)
    | SecretEdit(key: SecretKey, secret: Option<Secret>)
    | Foreign(change: Change)

  /** The change leaves this object's plane, its two secrets and every ID
      issued for its name alone. */
  ghost predicate Rely(p: Params, w: World, f: Change) {
    && ServiceOK(f.svc)
    && Lookup(f.secrets, KubeconfigKey(p.cluster)) == Lookup(Cur(w).secrets, KubeconfigKey(p.cluster))
    && Lookup(f.secrets, CaKey(p.cluster)) == Lookup(Cur(w).secrets, CaKey(p.cluster))
    && (f.commits || f.secrets == Cur(w).secrets)
    && Lookup(f.svc.names, p.name) == Lookup(w.svc.names, p.name)
    && (p.name in w.svc.names ==>
          Lookup(f.svc.planes, w.svc.names[p.name]) == Lookup(w.svc.planes, w.svc.names[p.name]))
    && (forall id :: id in w.svc.issued ==> id in f.svc.issued && f.svc.issued[id] == w.svc.issued[id])
    && (forall id :: id in f.svc.issued && f.svc.issued[id] == p.name ==> id in w.svc.issued)
  }

  /** Replaces the stored object, if there is one, on behalf of a user. */
  function UserWrite(w: World, now: ControlPlane -> ControlPlane): World {
    match Cur(w).obj
    case None => w
    case Some(o) => StoreObject(w, o, now(o).(rv := o.rv))
  }

  ghost function Apply(p: Params, s: State, l: Label): State {
    match l
    case Request(inp) => var (w, k) := Step(p, s.w, s.k, inp); State(w, k)
    case Start => if Stopped(s.k) then s.(k := Reading) else s
    case Crash => s.(k := Idle)
    case CreateObject(finalizer, others, spec) =>
      if s.w.born.Some? then s
      else
        var o := ControlPlane(s.w.rev + 1, finalizer, others, false, spec, EMPTY_STATUS);
        s.(w := Commit(s.w, Cur(s.w).(obj := Some(o))).(born := Some(|s.w.log|)))
    case Edit(spec) => s.(w := UserWrite(s.w, (o: ControlPlane) => o.(spec := spec)))
    case RequestDelete => s.(w := UserWrite(s.w, (o: ControlPlane) => o.(deleting := true)))
    case SetOtherFinalizers(on) =>
      s.(w := UserWrite(s.w, (o: ControlPlane) =>
        o.(otherFinalizers := if o.deleting then o.otherFinalizers && on else on)))
    case PlaneChange(id, status, version, endpoint, kc) =>
      if id !in s.w.svc.planes then s
      else
        var h := Hosted(Plane(id, s.w.svc.planes[id].plane.name, status, version, endpoint), kc);
        s.(w := s.w.(svc := s.w.svc.(planes := s.w.svc.planes[id := h])))
    case Draw(d) =>
      if d.id == "" || d.id in s.w.svc.issued then s
      else s.(w := s.w.(svc := s.w.svc.(next := Some(d))))
    case SecretEdit(key, secret) =>
      s.(w := match secret case Some(x) => SetSecret(s.w, key, x) case None => DropSecret(s.w, key))
    case Foreign(f) =>
      if !Rely(p, s.w, f) then s
      else if f.commits then
        s.(w := Commit(s.w, Cur(s.w).(secrets := f.secrets)).(svc := f.svc))
      else s.(w := s.w.(svc := f.svc))
  }

  ghost function Run(p: Params, s: State, labels: seq<Label>): State {
    if labels == [] then s
    else Apply(p, Run(p, s, labels[..|labels| - 1]), labels[|labels| - 1])
  }

  /** An object that is not there yet, or was created by the last commit and is
      untouched by the controller. The store has a past, which reads may still
      show; secrets, planes and IDs of earlier times may exist. */
  ghost predicate Init(s: State) {
    && s.k.Idle?
    && ServiceOK(s.w.svc)
    && s.w.events == []
    && (forall key: SecretKey :: KeyHistory(s.w, key))
    && (forall i :: 0 <= i < |s.w.log| - 1 ==> s.w.log[i].obj.None?)
    && (match Cur(s.w).obj
        case None => s.w.born.None?
        case Some(o) =>
          && s.w.born == Some(|s.w.log| - 1)
          && o.rv <= s.w.rev && o.status == EMPTY_STATUS && Survives(o) == Some(o))
  }

  // ---- Classes of runs ----

  predicate SetsSpec(l: Label) {
    l.Edit? || l.CreateObject?
  }

  /** Nobody ever sets spec.planeID. */
  ghost predicate GreenRun(labels: seq<Label>) {
    forall l :: l in labels && SetsSpec(l) ==> l.spec.planeID == ""
  }

  ghost predicate GreenStart(s: State) {
    Cur(s.w).obj.Some? ==> Cur(s.w).obj.value.spec.planeID == ""
  }

  /** Every read is answered from the current store. */
  ghost predicate FreshReads(labels: seq<Label>) {
    forall l :: l in labels && l.Request? ==> l.inp.lag == 0
  }

  /** The controller is the only writer of this object's secrets. */
  ghost predicate OnlyWriter(p: Params, labels: seq<Label>) {
    forall l :: l in labels && l.SecretEdit? ==>
      l.key != KubeconfigKey(p.cluster) && l.key != CaKey(p.cluster)
  }

  lemma RunSnoc(p: Params, s: State, labels: seq<Label>, l: Label)
    ensures Run(p, s, labels + [l]) == Apply(p, Run(p, s, labels), l)
  {
    assert (labels + [l])[..|labels|] == labels;
  }
}
