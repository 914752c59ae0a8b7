/** The HTTP client: list scans, the conversion of tenants to planes, and the
    mapping of status codes to errors. */
module HttpClient {
  import opened Domain
  import opened Errors
  import opened Stores
  import opened Controller
  import opened Runs
  import opened Safety
  import opened Writes
  import opened Provenance

  datatype Tenant = Tenant(
    id: string,
    name: string,
    version: Option<string>,
    hostname: Option<string>,
    subdomain: Option<string>)

  // ---- Tenants as planes ----

  const API_PORT := 6443

  function PlaneOf(t: Tenant): Plane {
    Plane(
      t.id,
      t.name,
      if t.hostname.Some? then READY else "created",
      if t.version.Some? then t.version.value else "",
      if t.hostname.Some? then Endpoint(t.hostname.value, API_PORT)
      else if t.subdomain.Some? then Endpoint(t.subdomain.value + ".k8s.noplane.io", API_PORT)
      else Endpoint("", 0))
  }

  /** What a plane says of the tenant it was made from, field by field. */
  predicate Describing(plane: Plane, t: Tenant) {
    && plane.id == t.id
    && plane.name == t.name
    && plane.version == (if t.version.Some? then t.version.value else "")
    && plane.status == (if t.hostname.Some? then "ready" else "created")
    && (t.hostname.Some? ==> plane.endpoint == Endpoint(t.hostname.value, 6443))
    && (t.hostname.None? && t.subdomain.Some? ==>
          plane.endpoint == Endpoint(t.subdomain.value + ".k8s.noplane.io", 6443))
    && (t.hostname.None? && t.subdomain.None? ==> plane.endpoint == Endpoint("", 0))
  }

  method TenantToPlane(t: Tenant) returns (plane: Plane)
    ensures plane == PlaneOf(t) && Describing(plane, t)
  {
    plane := Plane(t.id, t.name, "created", "", Endpoint("", 0));
    if t.version.Some? {
      plane := plane.(version := t.version.value);
    }
    if t.hostname.Some? {
      plane := plane.(status := READY);
      plane := plane.(endpoint := Endpoint(t.hostname.value, API_PORT));
    } else if t.subdomain.Some? {
      plane := plane.(endpoint := Endpoint(t.subdomain.value + ".k8s.noplane.io", API_PORT));
    }
  }

  /** A tenant counts as ready exactly when it reports a hostname, and the
      endpoint published for it is then that hostname with an undamaged port. */
  lemma ReadyMeansHostname(t: Tenant)
    ensures PlaneOf(t).status == READY <==> t.hostname.Some?
    ensures t.hostname.Some? ==> Desired(PlaneOf(t)) == Endpoint(t.hostname.value, 6443)
  {
    assert READY[0] == 'r';
    Int32Exact(API_PORT);
  }

  // ---- List scans ----

  function FirstById(ts: seq<Tenant>, id: string): Option<Tenant> {
    if ts == [] then None else if ts[0].id == id then Some(ts[0]) else FirstById(ts[1..], id)
  }

  function FirstByName(ts: seq<Tenant>, name: string): Option<Tenant> {
    if ts == [] then None else if ts[0].name == name then Some(ts[0]) else FirstByName(ts[1..], name)
  }

  function Converted(t: Option<Tenant>): Result<Plane> {
    if t.Some? then Ok(PlaneOf(t.value)) else Err(PlainError)
  }

  method GetPlane(tenants: seq<Tenant>, id: string) returns (r: Result<Plane>)
    ensures r == Converted(FirstById(tenants, id))
    ensures r.Ok? <==> exists t :: t in tenants && t.id == id
    ensures r.Ok? ==> r.value.id == id && exists t :: t in tenants && t.id == id && Describing(r.value, t)
  {
    FirstByIdFinds(tenants, id);
    var i := 0;
    while i < |tenants|
      invariant 0 <= i <= |tenants|
      invariant FirstById(tenants, id) == FirstById(tenants[i..], id)
    {
      if tenants[i].id == id {
        var plane := TenantToPlane(tenants[i]);
        return Ok(plane);
      }
      assert tenants[i..][1..] == tenants[i + 1..];
      i := i + 1;
    }
    return Err(PlainError);
  }

  method GetPlaneByName(tenants: seq<Tenant>, name: string) returns (r: Result<Plane>)
    ensures r == Converted(FirstByName(tenants, name))
    ensures r.Ok? <==> exists t :: t in tenants && t.name == name
    ensures r.Ok? ==> r.value.name == name && exists t :: t in tenants && t.name == name && Describing(r.value, t)
  {
    FirstByNameFinds(tenants, name);
    var i := 0;
    while i < |tenants|
      invariant 0 <= i <= |tenants|
      invariant FirstByName(tenants, name) == FirstByName(tenants[i..], name)
    {
      if tenants[i].name == name {
        var plane := TenantToPlane(tenants[i]);
        return Ok(plane);
      }
      assert tenants[i..][1..] == tenants[i + 1..];
      i := i + 1;
    }
    return Err(PlainError);
  }

  ghost predicate DistinctIds(ts: seq<Tenant>) {
    forall i, j :: 0 <= i < j < |ts| ==> ts[i].id != ts[j].id
  }

  ghost predicate DistinctNames(ts: seq<Tenant>) {
    forall i, j :: 0 <= i < j < |ts| ==> ts[i].name != ts[j].name
  }

  lemma {:induction false} FirstByIdFinds(ts: seq<Tenant>, id: string)
    ensures var r := FirstById(ts, id);
            && (r.Some? ==> r.value in ts && r.value.id == id)
            && (r.None? ==> forall t :: t in ts ==> t.id != id)
    ensures DistinctIds(ts) ==> forall t :: t in ts && t.id == id ==> FirstById(ts, id) == Some(t)
  {
    if ts != [] && ts[0].id != id {
      FirstByIdFinds(ts[1..], id);
    }
  }

  lemma {:induction false} FirstByNameFinds(ts: seq<Tenant>, name: string)
    ensures var r := FirstByName(ts, name);
            && (r.Some? ==> r.value in ts && r.value.name == name)
            && (r.None? ==> forall t :: t in ts ==> t.name != name)
    ensures DistinctNames(ts) ==> forall t :: t in ts && t.name == name ==> FirstByName(ts, name) == Some(t)
  {
    if ts != [] && ts[0].name != name {
      FirstByNameFinds(ts[1..], name);
    }
  }

  /** The service state a tenant list describes. */
  ghost predicate Describes(ts: seq<Tenant>, v: Service) {
    && (forall t :: t in ts ==> t.id in v.planes && v.planes[t.id].plane == PlaneOf(t) && t.name in v.names)
    && (forall id :: id in v.planes ==> exists t :: t in ts && t.id == id)
    && (forall n :: n in v.names ==> exists t :: t in ts && t.name == n && t.id == v.names[n])
  }

  lemma ScanByIdIsLookup(ts: seq<Tenant>, v: Service, id: string)
    requires DistinctIds(ts) && Describes(ts, v)
    ensures id in v.planes <==> FirstById(ts, id).Some?
    ensures id in v.planes ==> v.planes[id].plane == PlaneOf(FirstById(ts, id).value)
  {
    FirstByIdFinds(ts, id);
  }

  lemma ScanByNameIsLookup(ts: seq<Tenant>, v: Service, name: string)
    requires DistinctNames(ts) && Describes(ts, v)
    ensures name in v.names <==> FirstByName(ts, name).Some?
    ensures name in v.names ==>
              && v.names[name] in v.planes
              && v.planes[v.names[name]].plane == PlaneOf(FirstByName(ts, name).value)
  {
    FirstByNameFinds(ts, name);
    if name in v.names {
      var t :| t in ts && t.name == name && t.id == v.names[name];
    }
  }

  function ScanReply(t: Option<Tenant>): Reply {
    if t.Some? then PlaneIs(PlaneOf(t.value)) else Unavailable
  }

  lemma LookupReplies(p: Params, w: World, inp: Input, id: string, name: string)
    ensures Serve(p, w, Call.GetPlane(id), inp).1
         == if id in w.svc.planes then PlaneIs(w.svc.planes[id].plane) else Unavailable
    ensures Serve(p, w, Call.GetPlaneByName(name), inp).1
         == if name in w.svc.names && w.svc.names[name] in w.svc.planes
            then PlaneIs(w.svc.planes[w.svc.names[name]].plane) else Unavailable
  {
  }

  lemma ScanEqualsLookup(v: Service, ts: seq<Tenant>, id: string, name: string)
    requires DistinctIds(ts) && DistinctNames(ts) && Describes(ts, v)
    ensures ScanReply(FirstById(ts, id)) == if id in v.planes then PlaneIs(v.planes[id].plane) else Unavailable
    ensures ScanReply(FirstByName(ts, name))
         == if name in v.names && v.names[name] in v.planes
            then PlaneIs(v.planes[v.names[name]].plane) else Unavailable
  {
    ScanByIdIsLookup(ts, v, id);
    ScanByNameIsLookup(ts, v, name);
  }

  /** The scans of the HTTP client answer exactly as the indexes of the service
      do, for every tenant list with distinct IDs and distinct names. */
  lemma ScansRefineIndexes(p: Params, w: World, ts: seq<Tenant>, id: string, name: string, inp: Input)
    requires DistinctIds(ts) && DistinctNames(ts) && Describes(ts, w.svc)
    ensures Serve(p, w, Call.GetPlane(id), inp).1 == ScanReply(FirstById(ts, id))
    ensures Serve(p, w, Call.GetPlaneByName(name), inp).1 == ScanReply(FirstByName(ts, name))
  {
    ScanEqualsLookup(w.svc, ts, id, name);
    LookupReplies(p, w, inp, id, name);
  }

  /** The adopt path looks a plane up by name and then reads it by the ID it was
      given: both scans give the same plane, which is a tenant of that name with
      that ID. Names need not be distinct. */
  lemma AdoptedPlaneIsFound(ts: seq<Tenant>, name: string)
    requires DistinctIds(ts) && FirstByName(ts, name).Some?
    ensures var found := Converted(FirstByName(ts, name));
            && found.Ok? && found.value.name == name
            && FirstById(ts, found.value.id) == FirstByName(ts, name)
            && (exists t :: t in ts && t.name == name && t.id == found.value.id)
  {
    FirstByNameFinds(ts, name);
    FirstByIdFinds(ts, FirstByName(ts, name).value.id);
  }

  // ---- Status codes ----

  function CreateReply(status: int, created: Tenant): Result<Plane> {
    match status
    case 201 => Ok(PlaneOf(created))
    case 400 => Err(PlainError)
    case 403 => Err(PlainError)
    case 500 => Err(PlainError)
    case _ => Err(PlainError)
  }

  function DeleteReply(status: int): Result<()> {
    match status
    case 204 => Ok(())
    case 400 => Err(PlainError)
    case 403 => Err(PlainError)
    case 404 => Err(PlainError)
    case 500 => Err(PlainError)
    case _ => Err(PlainError)
  }

  function UpdateReply(): Result<()> {
    Err(PlainError)
  }

  /** The HTTP client never builds a typed error: neither a 409 nor any other
      answer to a creation is a conflict to the controller, neither a 404 nor
      any other answer to a deletion is a missing plane, and upgrades fail. */
  lemma HttpErrorsAreUntyped(status: int, created: Tenant)
    ensures HTTP_ERRORS == ErrorMapping(
              exists s: int :: IsConflict(CreateReply(s, created)),
              exists s: int :: IsNotFound(DeleteReply(s)),
              UpdateReply().Ok?)
    ensures CreateReply(status, created).Ok? <==> status == 201
    ensures CreateReply(status, created).Ok? ==> Describing(CreateReply(status, created).value, created)
    ensures DeleteReply(status).Ok? <==> status == 204
  {
  }

  // ---- Where published endpoints come from ----

  /** At every moment of the run, the service is what the list of that moment
      describes. */
  ghost predicate HttpRun(p: Params, s: State, labels: seq<Label>, lists: nat -> seq<Tenant>) {
    forall n :: 0 <= n <= |labels| ==> Describes(lists(n), Run(p, s, labels[..n]).w.svc)
  }

  lemma HeldIsListed(p: Params, s: State, labels: seq<Label>, lists: nat -> seq<Tenant>, id: string, plane: Plane)
      returns (n: nat, tenant: Tenant)
    requires HttpRun(p, s, labels, lists) && WasHeld(p, s, labels, id, plane)
    ensures n <= |labels| && tenant in lists(n) && tenant.id == id && PlaneOf(tenant) == plane
  {
    n :| HeldAt(p, s, labels, n, id, plane);
    assert Describes(lists(n), Run(p, s, labels[..n]).w.svc);
    tenant :| tenant in lists(n) && tenant.id == id;
  }

  lemma EndpointWrite(p: Params, w: World, k: Worker, inp: Input)
    requires Inv(State(w, k))
    ensures var o, n := Cur(w).obj, Cur(Serve(p, w, RequestOf(p, k), inp).0).obj;
            o.Some? && n.Some? && n.value.spec.endpoint != o.value.spec.endpoint ==>
              k.WritingEndpoint? && n.value.spec.endpoint == Desired(k.ctx.plane) && k.ctx.plane.status == READY
  {
    if Accepted(p, w, k) {
      WriteIsExact(p, w, k, inp);
    } else {
      OtherRequestsKeepObject(p, w, k, inp);
    }
  }

  lemma EndpointStep(p: Params, s: State, inp: Input)
    requires Inv(s)
    ensures EndpointChanges(s.w, Apply(p, s, Request(inp)).w) ==>
              && s.k.WritingEndpoint? && s.k.ctx.plane.status == READY
              && Cur(Apply(p, s, Request(inp)).w).obj.value.spec.endpoint == Desired(s.k.ctx.plane)
  {
    EndpointWrite(p, s.w, s.k, inp);
  }

  predicate EndpointChanges(w: World, w': World) {
    var o, n := Cur(w).obj, Cur(w').obj;
    o.Some? && n.Some? && n.value.spec.endpoint != o.value.spec.endpoint
  }

  /** The endpoint is the hostname of a listed tenant with the resolved ID. */
  predicate ListedEndpoint(list: seq<Tenant>, tenant: Tenant, k: Worker, endpoint: Endpoint) {
    && HasCtx(k) && tenant in list && tenant.id == k.ctx.id
    && tenant.hostname.Some? && endpoint == Endpoint(tenant.hostname.value, 6443)
  }

  /** Over every run against the HTTP client, each endpoint the controller
      publishes is the hostname that a tenant with the resolved ID reported in
      the list of some moment of the run, with port 6443; never the subdomain
      guess. */
  lemma EndpointProvenance(p: Params, s: State, labels: seq<Label>, lists: nat -> seq<Tenant>, inp: Input)
      returns (n: nat, tenant: Tenant)
    requires Init(s) && HttpRun(p, s, labels, lists)
    requires EndpointChanges(Run(p, s, labels).w, Apply(p, Run(p, s, labels), Request(inp)).w)
    ensures n <= |labels|
    ensures ListedEndpoint(lists(n), tenant, Run(p, s, labels).k,
                           Cur(Apply(p, Run(p, s, labels), Request(inp)).w).obj.value.spec.endpoint)
  {
    InitInv(s);
    RunKeepsInv(p, s, labels);
    var k := Run(p, s, labels).k;
    EndpointStep(p, Run(p, s, labels), inp);
    PlaneWasHeld(p, s, labels);
    n, tenant := HeldIsListed(p, s, labels, lists, k.ctx.id, k.ctx.plane);
    ReadyMeansHostname(tenant);
  }

  // ---- Where recorded IDs come from ----

  /** A listed tenant that bears the object's name and has this ID. */
  ghost predicate ListedUnder(list: seq<Tenant>, id: string, name: string) {
    exists t :: t in list && t.id == id && t.name == name
  }

  /** A plane under the object's name. */
  predicate HeldUnder(p: Params, v: Service, id: string) {
    id in v.planes && v.planes[id].plane.name == p.name
  }

  lemma StepPersists(p: Params, w: World, k: Worker, inp: Input)
    requires ServiceOK(w.svc)
    ensures var (w', r) := Serve(p, w, RequestOf(p, k), inp);
            (k.CreatingPlane? || k.LookingUp?) && r.PlaneIs? ==> HeldUnder(p, w'.svc, r.plane.id)
  {
  }

  lemma ResumePersists(p: Params, k: Worker, r: Reply, inp: Input)
    ensures var k' := Resume(p, k, r, inp);
            k'.PersistingID? ==> (k.CreatingPlane? || k.LookingUp?) && r.PlaneIs? && k'.id == r.plane.id
  {
  }

  lemma ActPersists(p: Params, s: State, l: Label)
    requires ServiceOK(s.w.svc)
    ensures var s' := Apply(p, s, l);
            s'.k.PersistingID? ==> s.k == s'.k || HeldUnder(p, s'.w.svc, s'.k.id)
  {
    if l.Request? {
      StepPersists(p, s.w, s.k, l.inp);
      ResumePersists(p, s.k, Serve(p, s.w, RequestOf(p, s.k), l.inp).1, l.inp);
      ResumePersists(p, s.k, Unavailable, l.inp);
    }
  }

  lemma HeldIsListedUnder(ts: seq<Tenant>, v: Service, id: string)
    requires Describes(ts, v) && id in v.planes
    ensures ListedUnder(ts, id, v.planes[id].plane.name)
  {
    var t :| t in ts && t.id == id;
  }

  /** Over every run against the HTTP client, an ID the controller is about to
      record, from a creation or from a lookup by name, is the ID of a tenant of
      the object's name in the list of some moment of the run. */
  lemma {:induction false} RecordsListedTenant(p: Params, s: State, labels: seq<Label>, lists: nat -> seq<Tenant>) returns (n: nat)
    requires Init(s) && HttpRun(p, s, labels, lists)
    ensures n <= |labels|
    ensures var k := Run(p, s, labels).k;
            k.PersistingID? ==> ListedUnder(lists(n), k.id, p.name)
  {
    n := 0;
    if labels != [] {
      var before, l := labels[..|labels| - 1], labels[|labels| - 1];
      var t, t' := Run(p, s, before), Run(p, s, labels);
      assert forall i :: 0 <= i <= |before| ==> before[..i] == labels[..i];
      n := RecordsListedTenant(p, s, before, lists);
      InitInv(s);
      RunKeepsInv(p, s, before);
      ActPersists(p, t, l);
      if t'.k.PersistingID? && t.k != t'.k {
        n := |labels|;
        assert labels[..n] == labels;
        HeldIsListedUnder(lists(n), t'.w.svc, t'.k.id);
      }
    }
  }
}
