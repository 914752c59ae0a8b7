/** The in-memory client: two indexes over shared, mutable plane records. */
module FakeClient {
  import opened Domain
  import opened Errors
  import opened Stores
  import opened Controller

  class PlaneRecord {
    var id: string
    var name: string
    var status: string
    var version: string
    var endpoint: Endpoint

    constructor (id: string, name: string, status: string, version: string, endpoint: Endpoint)
      ensures Value() == Plane(id, name, status, version, endpoint)
    {
      this.id, this.name, this.status, this.version, this.endpoint := id, name, status, version, endpoint;
    }

    function Value(): Plane
      reads this
    {
      Plane(id, name, status, version, endpoint)
    }
  }

  ghost predicate SameIndexes(a: Service, b: Service) {
    a.planes == b.planes && a.names == b.names
  }

  // ---- Sequences of mutating calls, on values ----

  datatype Op =
    | Create(id: string, name: string, version: string)
    | Upgrade(id: string, version: string)
    | Remove(id: string)

  function Performed(v: Service, kubeconfig: Bytes, op: Op): Service {
    match op
    case Create(id, name, version) =>
      if name in v.names then v
      else WithPlane(v, Draft(id, READY, FAKE_ENDPOINT, kubeconfig), name, version)
    case Upgrade(id, version) => if id in v.planes then WithVersion(v, id, version) else v
    case Remove(id) => if id in v.planes then WithoutPlane(v, id) else v
  }

  function After(v: Service, kubeconfig: Bytes, ops: seq<Op>): Service {
    if ops == [] then v
    else Performed(After(v, kubeconfig, ops[..|ops| - 1]), kubeconfig, ops[|ops| - 1])
  }

  /** Every creation that is carried out brings an ID not in use. */
  ghost predicate FreshIds(v: Service, kubeconfig: Bytes, ops: seq<Op>) {
    forall i :: 0 <= i < |ops| && ops[i].Create? ==>
      var u := After(v, kubeconfig, ops[..i]);
      ops[i].name in u.names || ops[i].id !in u.planes
  }

  /** u is the service after i calls, u' after one more. */
  lemma OneMore(v: Service, kubeconfig: Bytes, ops: seq<Op>, i: nat, u: Service, u': Service)
    requires i < |ops| && SameIndexes(u, After(v, kubeconfig, ops[..i]))
    requires SameIndexes(u', Performed(u, kubeconfig, ops[i]))
    ensures SameIndexes(u', After(v, kubeconfig, ops[..i + 1]))
  {
    assert ops[..i + 1][..i] == ops[..i];
  }

  ghost predicate Unused(v: Service, op: Op) {
    op.Create? && op.name !in v.names ==> op.id !in v.planes
  }

  lemma NextUnused(v: Service, kubeconfig: Bytes, ops: seq<Op>, i: nat, u: Service)
    requires FreshIds(v, kubeconfig, ops) && i < |ops| && SameIndexes(u, After(v, kubeconfig, ops[..i]))
    ensures Unused(u, ops[i])
  {
  }

  const FAKE_ID := "fake-np-id"
  const FAKE_ENDPOINT := Endpoint("fake.noplane.io", 6443)

  class Client {
    var planes: map<string, PlaneRecord>
    var planesByName: map<string, PlaneRecord>
    var kubeconfig: Bytes

    constructor (kubeconfig: Bytes)
      ensures Valid() && planes == map[] && planesByName == map[] && this.kubeconfig == kubeconfig
    {
      planes, planesByName, this.kubeconfig := map[], map[], kubeconfig;
    }

    ghost function Records(): set<PlaneRecord>
      reads this
    {
      planes.Values + planesByName.Values
    }

    /** The two indexes are inverse views of one set of records. */
    ghost predicate Valid()
      reads this, Records()
    {
      && (forall id :: id in planes ==>
            && planes[id].id == id
            && planes[id].name in planesByName && planesByName[planes[id].name] == planes[id])
      && (forall n :: n in planesByName ==>
            && planesByName[n].name == n
            && planesByName[n].id in planes && planes[planesByName[n].id] == planesByName[n])
    }

    /** The state of the service this client stands for. */
    ghost function Contents(): Service
      reads this, Records()
    {
      Service(
        map id | id in planes :: Hosted(planes[id].Value(), kubeconfig),
        map n | n in planesByName :: planesByName[n].id,
        map[],
        None)
    }

    /** Enters a record into both indexes. They stay inverse views exactly if the
        record's ID was not in use. */
    method Insert(p: PlaneRecord)
      requires Valid() && p !in Records() && p.name !in planesByName
      modifies this
      ensures planes == old(planes)[p.id := p] && planesByName == old(planesByName)[p.name := p]
      ensures kubeconfig == old(kubeconfig)
      ensures Valid() <==> p.id !in old(planes)
    {
      ghost var clash := p.id in planes;
      ghost var taken := if clash then planes[p.id].name else "";
      planes := planes[p.id := p];
      planesByName := planesByName[p.name := p];
      assert clash ==> taken in planesByName && planesByName[taken] != p && planesByName[taken].id == p.id;
    }

    /** Creation under a given ID. */
    method CreatePlaneAs(id: string, name: string, version: string) returns (r: Result<PlaneRecord>)
      requires Valid()
      modifies this
      ensures IsConflict(r) <==> name in old(planesByName)
      ensures r.Ok? <==> name !in old(planesByName)
      ensures r.Err? ==> planes == old(planes) && planesByName == old(planesByName) && Valid()
      ensures r.Ok? ==>
                && fresh(r.value) && r.value.Value() == Plane(id, name, READY, version, FAKE_ENDPOINT)
                && planes == old(planes)[id := r.value]
                && planesByName == old(planesByName)[name := r.value]
                && SameIndexes(Contents(),
                     WithPlane(old(Contents()), Draft(id, READY, FAKE_ENDPOINT, kubeconfig), name, version))
                && (Valid() <==> id !in old(planes))
      ensures kubeconfig == old(kubeconfig)
    {
      if name in planesByName {
        return Err(ConflictError(name));
      }
      var p := new PlaneRecord(id, name, READY, version, FAKE_ENDPOINT);
      ghost var before := Contents();
      Insert(p);
      Entered(before, p);
      return Ok(p);
    }

    /** A record that was entered last shows in both indexes. */
    lemma Entered(v: Service, p: PlaneRecord)
      requires planes.Keys == v.planes.Keys + {p.id} && planes[p.id] == p
      requires planesByName.Keys == v.names.Keys + {p.name} && planesByName[p.name] == p
      requires forall i :: i in planes && i != p.id ==> v.planes[i] == Hosted(planes[i].Value(), kubeconfig)
      requires forall n :: n in planesByName && n != p.name ==> v.names[n] == planesByName[n].id
      ensures SameIndexes(Contents(), WithPlane(v, Draft(p.id, p.status, p.endpoint, kubeconfig), p.name, p.version))
    {
    }

    /** The client as written hands out one constant ID: the second plane of a
        client breaks its indexes. */
    method CreatePlane(name: string, version: string) returns (r: Result<PlaneRecord>)
      requires Valid()
      modifies this
      ensures IsConflict(r) <==> name in old(planesByName)
      ensures r.Ok? <==> name !in old(planesByName)
      ensures name in old(planesByName) ==> IsConflict(r) == FAKE_ERRORS.conflictTyped
      ensures r.Ok? ==> r.value.Value() == Plane("fake-np-id", name, "ready", version, Endpoint("fake.noplane.io", 6443))
      ensures Valid() <==> (name in old(planesByName) || "fake-np-id" !in old(planes))
    {
      r := CreatePlaneAs(FAKE_ID, name, version);
    }

    method GetPlane(id: string) returns (r: Result<PlaneRecord>)
      ensures r.Ok? <==> id in planes
      ensures r.Ok? ==> r.value == planes[id]
      ensures IsNotFound(r) <==> id !in planes
    {
      if id !in planes {
        return Err(NotFoundError(id));
      }
      return Ok(planes[id]);
    }

    method GetPlaneByName(name: string) returns (r: Result<PlaneRecord>)
      ensures r.Ok? <==> name in planesByName
      ensures r.Ok? ==> r.value == planesByName[name]
      ensures IsNotFound(r) <==> name !in planesByName
    {
      if name !in planesByName {
        return Err(NotFoundError(name));
      }
      return Ok(planesByName[name]);
    }

    /** The update goes through the record both indexes share, so both show it. */
    method UpdatePlane(id: string, version: string) returns (r: Result<()>)
      requires Valid()
      modifies if id in planes then {planes[id]} else {}
      ensures Valid()
      ensures r.Ok? <==> id in planes
      ensures IsNotFound(r) <==> id !in planes
      ensures id in planes ==> r.Ok? == FAKE_ERRORS.updateSupported
      ensures r.Err? ==> Contents() == old(Contents())
      ensures r.Ok? ==> Contents() == WithVersion(old(Contents()), id, version)
      ensures r.Ok? ==> planes[id].version == if version != "" then version else old(planes[id].version)
    {
      if id !in planes {
        return Err(NotFoundError(id));
      }
      if version != "" {
        DistinctRecords(id);
        ghost var before := Contents();
        planes[id].version := version;
        assert Contents().names == before.names;
        VersionShows(before, id, version);
      }
      return Ok(());
    }

    lemma DistinctRecords(id: string)
      requires Valid() && id in planes
      ensures forall i :: i in planes && i != id ==> planes[i] != planes[id]
    {
    }

    lemma VersionShows(v: Service, id: string, version: string)
      requires id in planes && planes.Keys == v.planes.Keys && version != ""
      requires v.names == Contents().names && v.issued == map[] && v.next.None?
      requires forall i :: i in planes && i != id ==> v.planes[i] == Hosted(planes[i].Value(), kubeconfig)
      requires v.planes[id] == Hosted(v.planes[id].plane, kubeconfig)
      requires planes[id].Value() == v.planes[id].plane.(version := version)
      ensures Contents() == WithVersion(v, id, version)
    {
      assert Contents().planes == WithVersion(v, id, version).planes;
    }

    method DeletePlane(id: string) returns (r: Result<()>)
      requires Valid()
      modifies this
      ensures Valid()
      ensures r.Ok? <==> id in old(planes)
      ensures IsNotFound(r) <==> id !in old(planes)
      ensures id !in old(planes) ==> IsNotFound(r) == FAKE_ERRORS.notFoundTyped
      ensures r.Err? ==> planes == old(planes) && planesByName == old(planesByName)
      ensures r.Ok? ==> && planes == old(planes) - {id}
                        && planesByName == old(planesByName) - {old(planes)[id].name}
                        && Contents() == WithoutPlane(old(Contents()), id)
      ensures kubeconfig == old(kubeconfig)
    {
      if id !in planes {
        return Err(NotFoundError(id));
      }
      var p := planes[id];
      planesByName := planesByName - {p.name};
      planes := planes - {id};
      assert Contents().planes == old(Contents()).planes - {id};
      assert Contents().names == old(Contents()).names - {p.name};
      return Ok(());
    }

    /** The ID is not looked at: whatever planes there are, the client answers as
        a service does that has one kubeconfig for anyone. */
    method GetKubeconfig(id: string) returns (r: Result<Bytes>)
      ensures r.Ok?
      ensures forall p: Params, v: Service :: p.kubeconfigs == Anyone(kubeconfig) ==>
                KubeconfigReply(p, v, id) == KubeconfigIs(r.value)
    {
      return Ok(kubeconfig);
    }

    /** Carries out one mutating call. */
    method Perform(op: Op)
      requires Valid() && Unused(Contents(), op)
      modifies this, Records()
      ensures Valid() && kubeconfig == old(kubeconfig)
      ensures SameIndexes(Contents(), Performed(old(Contents()), kubeconfig, op))
      ensures forall x :: x in Records() ==> x in old(Records()) || fresh(x)
    {
      match op
      case Create(id, name, version) => PerformCreate(id, name, version);
      case Upgrade(id, version) => var _ := UpdatePlane(id, version);
      case Remove(id) => PerformRemove(id);
    }

    method PerformCreate(id: string, name: string, version: string)
      requires Valid() && Unused(Contents(), Create(id, name, version))
      modifies this
      ensures Valid() && kubeconfig == old(kubeconfig)
      ensures SameIndexes(Contents(), Performed(old(Contents()), kubeconfig, Create(id, name, version)))
      ensures forall x :: x in Records() ==> x in old(Records()) || fresh(x)
    {
      var _ := CreatePlaneAs(id, name, version);
    }

    method PerformRemove(id: string)
      requires Valid()
      modifies this
      ensures Valid() && kubeconfig == old(kubeconfig)
      ensures SameIndexes(Contents(), Performed(old(Contents()), kubeconfig, Remove(id)))
      ensures Records() <= old(Records())
    {
      var _ := DeletePlane(id);
    }

    /** Over every sequence of mutating calls with fresh IDs, the two indexes stay
        inverse views of one set of planes, and that set is the expected one. */
    method Replay(ops: seq<Op>)
      requires Valid() && FreshIds(Contents(), kubeconfig, ops)
      modifies this, Records()
      ensures Valid() && kubeconfig == old(kubeconfig)
      ensures SameIndexes(Contents(), After(old(Contents()), kubeconfig, ops))
    {
      ghost var v, kc := Contents(), kubeconfig;
      var i := 0;
      while i < |ops|
        invariant 0 <= i <= |ops|
        invariant Valid() && kubeconfig == kc
        invariant forall x :: x in Records() ==> x in old(Records()) || fresh(x)
        invariant SameIndexes(Contents(), After(v, kc, ops[..i]))
      {
        ghost var u := Contents();
        NextUnused(v, kc, ops, i, u);
        Perform(ops[i]);
        OneMore(v, kc, ops, i, u, Contents());
        i := i + 1;
      }
      assert ops[..i] == ops;
    }
  }
}
