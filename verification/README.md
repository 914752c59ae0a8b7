# The NoPlaneControlPlane controller, modelled in Dafny

The controller keeps two stores in agreement: the Kubernetes API server, where
a `NoPlaneControlPlane` object and two secrets per cluster live, and the
noplane.io service, which hosts the planes. Either side can change under it,
any request can fail, take effect while its reply is lost, or be the last one
before a crash. This project models the controller as a machine between the two
stores and proves what all of its runs keep, what it achieves when it is left
alone, and exactly where a promise of the code ends.

`dafny verify dfyconfig.toml` checks the whole project.

## How the model is built

- `Domain`, `Stores`: the records, and the operations of both stores.
- `Controller`: the reconciler as a machine. A `Worker` is a program location
  with its local variables; `RequestOf` is the API call it waits for, `Serve`
  what the stores do with it, `Resume` the code from the reply to the next call.
  Each request succeeds, fails before it takes effect, or takes effect while its
  reply is lost.
- `Runs`: requests interleaved with crashes, restarts, the creation of the
  object, user edits of the spec, deletion requests, changes of planes at the service, edits of secrets and the
  work of other objects' controllers. Reads of objects and secrets may be
  answered from any earlier state of the store, also from before the object
  existed, because the reconciler gets the manager's caching client
  (cmd/main.go:185-189).
- `Safety`, `Writes`, `Greenfield`, `Secrets`, `SecretContents`, `FreshReading`,
  `Provenance`: invariants and results over every run.
- `Answers`: what the result of a reconcile says about the stores, and that a
  paused object is left alone.
- `Convergence`, `Settling`: bounded convergence, fixpoint, crash refinement,
  for objects with and without `spec.planeID` and for every error mapping;
  `Destinations` reads the destination off the stores, field by field.
- `StaleReads`, `Pasts`, `StaleCopies`: what outdated reads can do to the CA
  secret, to the commit of readiness and to a converged world, and exactly when.
- `Stranding`, `Deletion`, `Brownfield`, `Moves`, `Witnesses`: where recovery
  depends on the client's error reporting or on the ID the kubeconfig is fetched
  for.
- `Fleet`, `Records`: any number of objects, created at any time, over the same
  two stores.
- `Errors`, `FakeClient`, `HttpClient`: the two clients of the service.
- `Reconciler`: the reconciler as imperative code that edits its copy of the
  object in place, proved to end as the machine ends.

"Greenfield" means that `spec.planeID` is empty during the whole run.

## What the environment is held to

- `Update` writes metadata and spec, `Status().Update` writes status; both are
  refused on a resourceVersion mismatch and refresh the local copy on success.
- A write that changes nothing commits nothing and keeps the resourceVersion.
  No finalizer can be added to an object that is being deleted. An object that
  is being deleted vanishes with its last finalizer. Users do not remove the
  controller's own finalizer.
- The type of a secret is immutable; updates of a secret are refused on a
  resourceVersion mismatch; a deletion of a secret names no resourceVersion. No
  stored resourceVersion is ahead of the store, and none of a secret stands for
  two contents.
- The service never issues an ID twice, refuses a second plane of one name, and
  nobody but the controller deletes the plane that bears its object's name.
- One reconcile of an object at a time.
- Parameters: the kubeconfig parser (an arbitrary function from bytes to cluster
  entries), the error mapping of the client, whether the service looks at the ID
  a kubeconfig is asked for, the random key, the entry that Go's map iteration
  yields first, owner and pause state.

## Where the code falls short of its comments

Each of these is a theorem of the model; the code is modelled as it is.

- The comment at internal/controller/noplanecontrolplane_controller.go:169-177
  promises adoption after a 409, but the HTTP client never builds a
  `ConflictError`. After a creation whose reply is lost, such a controller never
  reports anything again, and the plane stays (`Stranding`).
- Likewise a 404 on deletion is no `NotFoundError` to the HTTP client. If the
  reply to the plane's deletion is lost, the finalizer is never removed
  (`Deletion`).
- The kubeconfig is fetched for `status.planeID`. An object created with
  `spec.planeID` has none until the final write, so the adoption described at
  api/v1alpha1/noplanecontrolplane_types.go:49-53 finishes if and only if the
  service ignores the ID, as the fake client does (`Brownfield`).
- Likewise, an object whose `spec.planeID` is moved off a plane on record first
  commits readiness with the new endpoint and the old plane's kubeconfig, needs
  one reconcile more, keeps the old plane's certificate in a CA secret that had
  no key, and never settles if the old plane is gone (`Moves`).
- A plane is created under the bare object name. Of two objects of one name in
  different namespaces, the later one takes over the plane of the earlier one,
  if its client reports the 409 as a ConflictError; with the HTTP client it
  fails instead, and no two objects ever share a plane (`Records`).
- The comment at internal/controller/noplanecontrolplane_controller.go:298 rests
  on a first look at the CA secret that may be outdated. If it misses a key that
  is there, the secret is refilled with a new key (the second look is current,
  as in the ordinary lag after its creation) or dropped (the second look shows an
  older secret of the wrong type), and otherwise left alone
  (`StaleReads.LooksDecide`). First looks that do not miss a key are enough for
  stability, however stale all other reads are (`Secrets.CaSecretStable`).
- Readiness is committed with both secrets in place, however stale the reads, if
  the past of the CA secret is sound: a key that any snapshot shows is there, and
  no snapshot shows a secret of another type next to one without a key. From
  every other past there is a run of the controller alone that commits without a
  key in a CA secret (`Pasts.CommitWithoutCa`): an earlier key that the cache
  still shows, as after a cluster is deleted and created again under its name, or
  the deletion of a good secret in place of an older one of another type.
- A converged controller that reads an older copy of the object takes the plane
  back to the version that copy asks for (`StaleCopies.OldVersionDowngrades`). A
  copy from before a change of `spec.planeID` can have another plane upgraded or
  created, or the kubeconfig secret overwritten, and exactly when is stated
  (`StaleCopies.StaleCopyDecides`).
- A plane that was created but never recorded outlives its object
  (`Witnesses.PlaneOutlivesObject`); no other plane of the controller does
  (`Greenfield.DeleteLeavesOnlyUnrecorded`).
- The fake client gives every plane one ID; its second plane breaks its indexes
  (`FakeClient.Client.CreatePlane`).

## Model

| member | source | states |
|---|---|---|
| Domain.SecretKeysApart | internal/controller/noplanecontrolplane_controller.go:256-296 | the two secrets lie in the cluster's namespace under its name with -kubeconfig and -ca; two clusters share one only if they are the same cluster, and no kubeconfig secret is anyone's CA secret |
| Domain.Int32Exact | internal/controller/noplanecontrolplane_controller.go:141-144 | the port conversion loses nothing exactly on the int32 range, and elsewhere keeps the low 32 bits |
| Safety.CopyIsCurrent | internal/controller/noplanecontrolplane_controller.go:87-87 | in every reachable state a copy with the stored resourceVersion is the stored object |
| Safety.WriteIsExact | internal/controller/noplanecontrolplane_controller.go:145-166 | although every write sends a whole copy, an accepted one changes exactly the field its location edits, on top of what is stored at that moment |
| Safety.StepKeepsInv | internal/controller/noplanecontrolplane_controller.go:64-377 | every request, whatever its outcome, keeps the invariant of history, service and location |
| Safety.RunKeepsInv | internal/controller/noplanecontrolplane_controller.go:64-377 | so does every run, and history only grows |
| Writes.RequestWrites | internal/controller/noplanecontrolplane_controller.go:84-242 | one request changes the stored object in at most one of six ways and removes it only when it was being deleted |
| Writes.UserEditsSurvive | internal/controller/noplanecontrolplane_controller.go:145-166 | no lost updates: in every run the stored version and planeID of the spec are those of the last user edit, or of the creation |
| Writes.StickyStatus | api/v1alpha1/noplanecontrolplane_types.go:57-71 | over any stretch of any run `initialized`, `ready` and the deletion mark never go back, `ready` equals `initialized`, and an object that is gone stays gone |
| Writes.ReadyCommit | internal/controller/noplanecontrolplane_controller.go:160-166 | an accepted final write leaves a status that agrees with the spec stored at that moment, and the endpoint of the plane read as ready |
| Writes.ReadyOnlyByCommit | internal/controller/noplanecontrolplane_controller.go:161-166 | `initialized` becomes true by no other step than an accepted final write |
| Writes.NoLostWakeUp | internal/controller/noplanecontrolplane_controller.go:64-105 | every reconcile of an owned, unpaused object that it finds ends with an error, a positive requeue delay or a commit that changes that object |
| Writes.EveryEndWakes | internal/controller/noplanecontrolplane_controller.go:84-243 | the same for the request that ends a reconcile inside any run, with anybody acting between two requests |
| Answers.GatedReconcile | internal/controller/noplanecontrolplane_controller.go:67-82 | for every script of outcomes, a reconcile that finds no object, an unowned or a paused one, or cannot tell, ends at once as Gone, Unowned, Paused or Failed and leaves both stores equal; no other reconcile ends as Gone, Unowned or Paused |
| Answers.PassedGate | internal/controller/noplanecontrolplane_controller.go:73-105 | in every run a reconcile is past the owner and pause check only if it found the object owned and not paused, in this reconcile |
| Answers.PausedIsLeftAlone | internal/controller/noplanecontrolplane_controller.go:78-82 | over every run in which the object is never found owned and unpaused, no request changes a store or reaches the service with a mutating call |
| Answers.DelaysTell | internal/controller/noplanecontrolplane_controller.go:120-166 | in every run a request ends in 15 seconds if and only if the plane read under the resolved ID is not ready, in 30 if and only if the service carried out an upgrade to the wanted version and answered, in 60 if and only if the final status write was taken and answered; there is no other delay, and an upgrade or final write that was refused or not answered ends as Failed |
| Answers.OtherEndsTell | internal/controller/noplanecontrolplane_controller.go:67-242 | in every run a request ends without delay or error if and only if a finalizer write was taken and answered, or the object was missing, unowned or paused; an unanswered request is a failure, but for the second look at the CA secret |
| Answers.LastRequest | internal/controller/noplanecontrolplane_controller.go:64-105 | a whole reconcile ends as the request that ends it, from a state of the same invariant, so these ends are those of reconciles |
| Writes.CredentialsOfResolvedPlane | internal/controller/noplanecontrolplane_controller.go:186-308 | in every run the kubeconfig and CA fetches ask for the resolved plane if and only if `spec.planeID` is empty or equals `status.planeID` |
| Greenfield.RunKeepsGreen | internal/controller/noplanecontrolplane_controller.go:178-242 | every greenfield run keeps: one recorded ID, issued for this name, whose plane is guarded by the finalizer and alive until deletion is requested |
| Greenfield.SingleCreation | internal/controller/noplanecontrolplane_controller.go:169-221 | between any two successful creations of a greenfield run lies a successful deletion, whatever is lost, stale or crashes |
| Greenfield.SameIdEveryTime | internal/controller/noplanecontrolplane_controller.go:178-221 | every successful resolvePlaneID of a run returns the same ID, and the copy's `status.planeID` is that ID |
| Greenfield.PlaneIdWriteOnce | api/v1alpha1/noplanecontrolplane_types.go:68-71 | a stored `status.planeID` never changes again |
| Greenfield.DeleteLeavesOnlyUnrecorded | internal/controller/noplanecontrolplane_controller.go:228-242 | without the finalizer no recorded plane exists, and a plane the controller created exists if and only if it was never recorded |
| Greenfield.FinalizerGuardsPlane | internal/controller/noplanecontrolplane_controller.go:84-104 | a recorded plane that exists implies the stored finalizer; until deletion is requested the recorded plane exists under the object's name |
| Secrets.CaWritesComplete | internal/controller/noplanecontrolplane_controller.go:327-376 | in every run, any CA secret the controller writes has the cluster type, a certificate and a key |
| Secrets.UpdatesKeepType | internal/controller/noplanecontrolplane_controller.go:281-376 | in every run a pending update of either secret is accepted if and only if its resourceVersion is the stored one; it then carries the stored type and owner and replaces data and labels only, so none is ever refused for its type |
| SecretContents.SecretWritesLand | internal/controller/noplanecontrolplane_controller.go:256-376 | in every run, a secret request the store takes lands at <cluster>-kubeconfig or <cluster>-ca in the cluster's namespace: a new secret has the cluster as owner and type Opaque or cluster.x-k8s.io/secret, an old one keeps owner and type; labels are the cluster name only; data are value, or tls.crt and tls.key, with what this location holds |
| SecretContents.NothingElseLands | internal/controller/noplanecontrolplane_controller.go:256-376 | in every run no request changes any secret in any other way |
| Secrets.CaSecretStable | internal/controller/noplanecontrolplane_controller.go:298-306 | with no other writer, a CA secret that has a key is never changed again in any run whose first looks do not miss a key that is there; all other reads may be stale |
| Secrets.FreshLooks | internal/controller/noplanecontrolplane_controller.go:299-303 | runs with fresh reads are such runs, and their first looks show a key exactly if there is one |
| Secrets.ConsistentReadyCommit | internal/controller/noplanecontrolplane_controller.go:125-166 | when a final write is accepted, status and spec agree on the version, the endpoint is that of the ready plane, the kubeconfig secret exists and the CA secret has a key, whatever users edited meanwhile and however stale the reads, also from before the object existed; the past of the CA secret must be sound, or else first looks show a key exactly if there is one |
| Provenance.PlaneWasHeld | internal/controller/noplanecontrolplane_controller.go:115-138 | in every run the plane a reconcile works with was held by the service under the resolved ID when the reconcile asked for it |
| Provenance.KubeconfigWasServed | internal/controller/noplanecontrolplane_controller.go:251-283 | with no other writer, the kubeconfig a reconcile holds and then stores is the one the service answered for the ID on record, in this reconcile |
| Provenance.CommitProvenance | internal/controller/noplanecontrolplane_controller.go:120-166 | at an accepted final write both hold of the reported plane and of the stored kubeconfig |
| Provenance.UpgradesAreCalledFor | internal/controller/noplanecontrolplane_controller.go:125-138 | in every run an upgrade is asked for only if the plane, when this reconcile read it under the resolved ID, was ready and in another version than the spec wants |
| Provenance.CaWasServed | internal/controller/noplanecontrolplane_controller.go:308-341 | in every run the certificate a reconcile prepares is the picked entry of the kubeconfig the service answered for the ID on record, in this reconcile, and the key is the one drawn with it |
| Provenance.MintsOnlyKeyless | internal/controller/noplanecontrolplane_controller.go:298-303 | in every run a reconcile fetches a certificate only after a first look that showed no CA secret or one with an empty tls.key |
| Provenance.ChangedCaWasServed | internal/controller/noplanecontrolplane_controller.go:298-376 | whenever a request changes the stored CA secret, both hold: its tls.crt is that entry and its tls.key that key |
| FreshReading.FinalizerBeforeCreation | internal/controller/noplanecontrolplane_controller.go:84-104 | with fresh reads a creation is asked for only while copy and store carry the finalizer, at most one ever succeeds, and none after a deletion |
| Convergence.StepHeads | internal/controller/noplanecontrolplane_controller.go:107-167 | no request of any outcome moves the destination of an undisturbed world or leads away from it |
| Settling.ThreeReconcilesConverge | internal/controller/noplanecontrolplane_controller.go:107-167 | for every error mapping, and with or without `spec.planeID`: three undisturbed reconciles bring planes, spec, status, kubeconfig secret and CA secret to the destination of the world they started from, if and only if the client can upgrade a drifting plane and report the taken name of a plane not on record |
| Moves.FourReconcilesMove | internal/controller/noplanecontrolplane_controller.go:107-254 | the same for an object moved off the plane on record, at a service that answers by ID: four undisturbed reconciles converge if and only if the old plane is still there and a drifting new plane can be upgraded; the CA certificate is then the old plane's unless the secret had a key |
| Moves.PublishesFormer | internal/controller/noplanecontrolplane_controller.go:145-166 | on its way such a move passes through a world that reports the new plane as ready while the kubeconfig secret is the old plane's |
| Moves.MoveCrashRefinement | internal/controller/noplanecontrolplane_controller.go:107-376 | however the reconciles of such a move are cut or disturbed, the following four end where it would have ended |
| Destinations.ThreeReconcilesStore | internal/controller/noplanecontrolplane_controller.go:107-376 | the destination of ThreeReconcilesConverge read off the stores, field by field: status and endpoint of the plane on record, kubeconfig under value in <cluster>-kubeconfig, and in <cluster>-ca the kubeconfig's certificate under tls.crt with a key, or the old certificate if there was a key |
| Destinations.FourReconcilesStore | internal/controller/noplanecontrolplane_controller.go:107-376 | the same for a move: the new plane's kubeconfig, the old plane's certificate |
| Settling.ReachableStatesConverge | internal/controller/noplanecontrolplane_controller.go:64-167 | the same from every state that any faulty, stale, interleaved run reaches, if the object is not being deleted, the plane it stands for is ready and the kubeconfig is fetched for that plane; with the fake's error mapping always |
| Settling.Fixpoint | internal/controller/noplanecontrolplane_controller.go:131-303 | from a converged state no sequence of whole, faulty or cut reconciles with fresh reads changes either store or reaches the service with a mutating call |
| Settling.CrashRefinement | internal/controller/noplanecontrolplane_controller.go:107-376 | however many reconciles are cut or disturbed, and wherever, the following ones end in the same planes, spec, status, kubeconfig and CA certificate as if nothing had happened, if and only if no plane was left unrecorded or the client reports its taken name |
| Settling.SettleIsExec | internal/controller/noplanecontrolplane_controller.go:64-105 | the undisturbed reconcile of these results is the reconciler's execution under a constant script |
| Settling.ExecIsRun | internal/controller/noplanecontrolplane_controller.go:64-105 | every execution of a reconcile is a run, so the results over runs apply to it |
| Stranding.LostCreateReplyStrands | internal/controller/noplanecontrolplane_controller.go:198-212 | a creation that takes effect while its reply is lost leaves a plane nobody has on record |
| Stranding.StrandedForever | internal/api/noplane/client.go:61-72 | without a typed 409 no greenfield continuation ever reports anything or removes that plane |
| Stranding.StrandedRecovers | internal/controller/noplanecontrolplane_controller.go:202-218 | for every error mapping: three undisturbed reconciles recover it if and only if the client reports the 409 as a ConflictError and can upgrade the plane should its version have drifted |
| Deletion.OneReconcileDeletes | internal/controller/noplanecontrolplane_controller.go:223-243 | one undisturbed reconcile of an object being deleted removes the finalizer if and only if nothing is recorded, the plane exists or a missing plane is reported as NotFoundError; the recorded plane is gone in any case, and the object goes unless others hold finalizers |
| Deletion.LostDeleteReplyOrphans | internal/controller/noplanecontrolplane_controller.go:234-242 | a plane deletion that takes effect while its reply is lost leaves the finalizer on an object whose plane is gone |
| Deletion.FinalizerStuckForever | internal/api/noplane/client.go:108-128 | without a typed 404 no greenfield continuation ever removes that finalizer |
| Brownfield.AdoptionNeverFinishes | internal/controller/noplanecontrolplane_controller.go:186-254 | with a service that answers by ID, no run that keeps `spec.planeID` set ever reports a status or writes a secret |
| Brownfield.AdoptionFinishes | internal/controller/noplanecontrolplane_controller.go:107-254 | at any moment of a run that keeps `spec.planeID` set, if the plane it names is ready, three undisturbed reconciles complete the adoption if and only if the service ignores the ID and a drifting plane can be upgraded |
| Fleet.FleetStart | internal/controller/noplanecontrolplane_controller.go:178-221 | greenfield objects over shared stores, each just created or not there yet, satisfy the greenfield invariant, each for itself |
| Fleet.NonInterference | internal/controller/noplanecontrolplane_controller.go:198-296 | for any number of greenfield objects with distinct names and clusters, created at any time, what one of them goes through in a run of all is a run of that object alone |
| Fleet.GreenInFleet | internal/controller/noplanecontrolplane_controller.go:198-234 | that run is greenfield, so all greenfield results hold in the fleet |
| Fleet.FreshInFleet | internal/controller/noplanecontrolplane_controller.go:64-70 | that run has fresh reads if the fleet's run has |
| Records.NoSharedPlane | internal/controller/noplanecontrolplane_controller.go:198-220 | in any fleet of greenfield objects, created at any time and with any clusters, two of them never record the same plane if their names differ or if the client of neither types the 409 |
| Fleet.ActsStayLocal | internal/controller/noplanecontrolplane_controller.go:198-376 | a step of one object leaves object, plane, secrets and reconcile of every other one as they are |
| Records.AdoptsByName | internal/controller/noplanecontrolplane_controller.go:198-216 | a reconcile with nothing on record, whose client types the 409, takes over whatever plane bears its object's name |
| Records.SharedNameSharesPlane | internal/controller/noplanecontrolplane_controller.go:198-216 | the converse: of two objects of one name, a later one whose client types the 409 records the plane of the earlier one |
| HttpClient.TenantToPlane | internal/api/noplane/client.go:178-205 | ID and name are the tenant's, the version is the reported one or empty, and status and endpoint say ready with the hostname, or created with the subdomain guess or nothing; port 6443 |
| HttpClient.ReadyMeansHostname | internal/api/noplane/client.go:175-196 | a tenant is ready if and only if it reports a hostname, which is then the published endpoint with port 6443 |
| HttpClient.GetPlane | internal/api/noplane/client.go:75-87 | succeeds if and only if a tenant has the ID; the plane carries that ID and the fields of the first such tenant; otherwise a plain error |
| HttpClient.GetPlaneByName | internal/api/noplane/client.go:89-101 | the same by name: the plane carries the name and the ID of the tenant found |
| HttpClient.FirstByIdFinds | internal/api/noplane/client.go:81-86 | the first match is in the list and has the ID, there is none only if no tenant has it, and with distinct IDs it is the tenant with the ID |
| HttpClient.FirstByNameFinds | internal/api/noplane/client.go:95-100 | the same by name |
| HttpClient.ScansRefineIndexes | internal/api/noplane/client.go:75-101 | on tenant lists with distinct IDs and names both scans answer exactly as the service's indexes |
| HttpClient.AdoptedPlaneIsFound | internal/controller/noplanecontrolplane_controller.go:208-220 | a lookup by name gives the ID of a tenant of that name, and looking up by that ID gives the same plane, even if names repeat |
| HttpClient.HttpErrorsAreUntyped | internal/api/noplane/client.go:48-128 | no status code makes a creation a conflict or a deletion a missing plane, and upgrades always fail: this is the error mapping HTTP_ERRORS; creation succeeds exactly on 201 with the tenant's own ID, name and version, deletion exactly on 204 |
| HttpClient.EndpointProvenance | internal/controller/noplanecontrolplane_controller.go:125-150 | over every run against the HTTP client, an endpoint the controller changes is the hostname that a tenant with the resolved ID reported in the list of some moment of the run, with port 6443 |
| HttpClient.RecordsListedTenant | internal/controller/noplanecontrolplane_controller.go:198-218 | over every run against the HTTP client, an ID about to be recorded is the ID of a tenant of the object's name in the list of some moment of the run |
| FakeClient.Client.constructor | internal/api/noplane/fake/client.go:34-41 | a new client has two empty indexes that agree |
| FakeClient.Client.Insert | internal/api/noplane/fake/client.go:60-61 | entering a record keeps the indexes inverse views if and only if its ID is not in use |
| FakeClient.Client.CreatePlaneAs | internal/api/noplane/fake/client.go:43-63 | creation is a conflict if and only if the name is taken, changes nothing then, and otherwise adds exactly the service's new plane to both indexes |
| FakeClient.Client.CreatePlane | internal/api/noplane/fake/client.go:43-63 | with the constant ID the indexes survive if and only if the name is taken or that ID is not in use |
| FakeClient.Client.GetPlane | internal/api/noplane/fake/client.go:65-77 | finds exactly the planes of the first index; otherwise NotFoundError |
| FakeClient.Client.GetPlaneByName | internal/api/noplane/fake/client.go:79-91 | finds exactly the planes of the second index; otherwise NotFoundError |
| FakeClient.Client.UpdatePlane | internal/api/noplane/fake/client.go:93-108 | an update through the shared record shows in both indexes and changes nothing else, and an empty version changes nothing at all; an unknown ID is a NotFoundError and changes nothing |
| FakeClient.Client.DeletePlane | internal/api/noplane/fake/client.go:110-124 | removes exactly this plane from both indexes; an unknown ID is a NotFoundError and changes nothing |
| FakeClient.Client.GetKubeconfig | internal/api/noplane/fake/client.go:126-134 | for every ID and whatever planes there are, the client answers as the service with one kubeconfig for anyone |
| FakeClient.Client.Perform | internal/api/noplane/fake/client.go:43-124 | each mutating call does to the indexes what it does to the service |
| FakeClient.Client.Replay | internal/api/noplane/fake/client.go:43-124 | over every sequence of mutating calls with fresh IDs the indexes stay inverse views of one set of planes, and it is the set the service holds after these calls |
| Reconciler.PersistPlaneID | internal/controller/noplanecontrolplane_controller.go:214-218 | leads the machine from the status write to the read of the plane with the refreshed copy, or fails as it does |
| Reconciler.ResolvePlaneID | internal/controller/noplanecontrolplane_controller.go:178-221 | the method that edits its copy in place continues or fails exactly as the machine does |
| Reconciler.ReconcileDelete | internal/controller/noplanecontrolplane_controller.go:223-243 | ends as the machine ends, with the same stores |
| Reconciler.ReconcileKubeconfig | internal/controller/noplanecontrolplane_controller.go:245-284 | leads the machine to the CA secret, or fails as it does; if it succeeds, <cluster>-kubeconfig is labelled with the cluster and holds exactly the kubeconfig the service answers for status.planeID |
| Reconciler.WriteKubeconfig | internal/controller/noplanecontrolplane_controller.go:256-283 | create or refill: leads the machine to the CA secret, or fails as it does; if it succeeds, <cluster>-kubeconfig has the label and holds exactly the given kubeconfig |
| Reconciler.DrawCA | internal/controller/noplanecontrolplane_controller.go:308-341 | leads the machine to the second look at the CA secret with the picked certificate and the drawn key, or fails as it does |
| Reconciler.CreateCASecret | internal/controller/noplanecontrolplane_controller.go:361-372 | leads the machine from the creation of the CA secret to the final write, or fails as it does; if it succeeds, <cluster>-ca is owned by and labelled with the cluster, has the cluster type, and holds certificate and key |
| Reconciler.WriteCASecret | internal/controller/noplanecontrolplane_controller.go:343-377 | create, replace or refill: leads the machine to the final write, or fails as it does; if it succeeds, <cluster>-ca has label, type, certificate and key |
| Reconciler.ReconcileCASecret | internal/controller/noplanecontrolplane_controller.go:290-377 | leads the machine from the check of the CA secret to the final write, or fails as it does; if it succeeds, either the first look showed a tls.key and nothing changed, or the stored certificate is the picked entry of the kubeconfig served for status.planeID and the stored key the drawn one |
| Reconciler.SurfaceEndpoint | internal/controller/noplanecontrolplane_controller.go:140-150 | leads the machine to the kubeconfig with the refreshed copy, or fails as it does |
| Reconciler.CommitStatus | internal/controller/noplanecontrolplane_controller.go:160-166 | ends as the machine's final write ends: with 60 seconds if and only if the write was answered and its resourceVersion is the stored one, the status then being the plane's, and otherwise Failed |
| Reconciler.Publish | internal/controller/noplanecontrolplane_controller.go:140-166 | from a ready plane of the wanted version on, ends as the machine ends |
| Reconciler.ReconcileNormal | internal/controller/noplanecontrolplane_controller.go:107-167 | ends as the machine ends, with the same stores; what its ends mean is in Answers.DelaysTell |
| Reconciler.Reconcile | internal/controller/noplanecontrolplane_controller.go:64-105 | for every script of outcomes the method leaves the stores as the machine does and ends as it ends, so all results above are about this code; a missing, unowned or paused object is left alone |
| Witnesses.PlaneOutlivesObject | internal/controller/noplanecontrolplane_controller.go:198-231 | from every state about to create: if the reply is lost and the object then deleted, the object goes and the plane stays |
| StaleReads.LooksDecide | internal/controller/noplanecontrolplane_controller.go:298-376 | an undisturbed reconcile changes a CA secret that has a key if and only if its first look misses the key and its second shows a secret of the wrong type or the current one |
| StaleReads.FirstLookDecides | internal/controller/noplanecontrolplane_controller.go:300-303 | with a current second look the secret stays if and only if the first look does not miss the key: the converse of CaSecretStable at its guard |
| Pasts.GoneKeyCommitsBare | internal/controller/noplanecontrolplane_controller.go:298-303 | from every serviceable world in which an earlier snapshot shows a key that is gone, one outdated read among fresh ones commits readiness without a key |
| Pasts.CommitWithoutCa | internal/controller/noplanecontrolplane_controller.go:298-372 | from every serviceable world whose past is not sound there is a run of the controller alone that commits readiness without a key in a CA secret: the exact condition of ConsistentReadyCommit |
| Pasts.ForwardReadsCommitBare | internal/controller/noplanecontrolplane_controller.go:361-372 | the same for a CA secret of another type without a key, with secrets read from snapshots that only move forward |
| StaleCopies.StaleFixpoint | internal/controller/noplanecontrolplane_controller.go:131-303 | once converged, no sequence of whole, faulty or cut reconciles changes either store, however outdated its reads, as long as copies of the object lead to its plane in the wanted version and first looks show the key |
| StaleCopies.OldVersionDowngrades | internal/controller/noplanecontrolplane_controller.go:130-138 | an outdated copy that leads to the object's plane moves it if and only if it asks for another version and the client can upgrade; the plane then has that version, and nothing else changes |
| StaleCopies.StaleCopyDecides | internal/controller/noplanecontrolplane_controller.go:84-283 | of all outdated copies of a converged object, exactly those move something that name no plane while the name is free, name a ready plane in another version that can be upgraded, or lead to a ready plane with the endpoint they show but to another kubeconfig |

## Left out

- Conditions, replicas, selector, logging and error texts: the protocol does not decide on them.
- Reading the API key and building the client (`getAPIKey`, `ClientFactory`): one request that succeeds or fails; the credentials secret has no contents here.
- `GetOwnerCluster` and `IsPaused`: an input of each reconcile; the owner cluster of an object does not change during a run.
- RSA key generation, PEM encoding and YAML parsing: arbitrary bytes and an arbitrary parser function.
- Building HTTP requests and decoding JSON: only the tenant record and the status codes are modelled; a listing or a kubeconfig request that fails is a request that fails, whatever its status code.
- The fake's error injection fields, call counters and mutex: an injected error is the outcome of a request, and every call is atomic.
- Manager wiring, flags, TLS, metrics, leader election, the template controller with its empty reconcile, manifests and generated code: no part of the protocol.
- Two controllers working on one object at once, and an object created anew under the name of a deleted one: the past shows other secrets and planes, but no earlier object of the name.
- Labels and annotations of the object, and foreign owner references of secrets: only the owner the controller sets is kept.
- Settling.ReachableStatesConverge: `spec.version` is not empty, as the resource's schema demands. Objects moved off a plane on record, at a service that answers by ID, are in `Moves`.
- Moves.FourReconcilesMove: the kubeconfig of the old plane, if it is there, can be parsed and carries one CA certificate.
- Settling.CrashRefinement: all cluster entries of the kubeconfig carry the same CA certificate, which a single-cluster kubeconfig does; otherwise the certificate depends on Go's map iteration. Compared up to resourceVersions and the random key.
- Secrets.ConsistentReadyCommit: the controller is the only writer of the two secrets; the part about status, spec and endpoint (`Writes.ReadyCommit`) does not need that.
- FakeClient.Client.Replay: IDs are given with each creation instead of being the constant the fake uses; `FakeClient.Client.CreatePlane` says what that constant does.
- Fleet.NonInterference: everything that happens to the shared stores happens at some member of the fleet; strangers that use neither these names nor these clusters are not modelled there.
