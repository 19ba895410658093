# Verified model of provider-ucan

provider-ucan is a Crossplane provider with three controllers: virtual machines, volumes and
floating IPs. Each one observes, creates and deletes a remote resource through a signing HTTP
client, and keeps the remote id in an annotation of the custom resource.

This project models, and proves properties of:

- **The lifecycle over whole runs.** `World` holds any number of custom resources of the three
  kinds, the remote services, and a history. An event is a user's edit, one controller call, or
  something a service does. The events carry everything the controllers do not determine: the
  answer a call got (nothing sent, broken exchange, any status code, a body that decodes or not)
  and, independently of it, what the service did with the request. A sequence of events is a run;
  events that cannot happen are skipped, so every statement is about every sequence of events.
  A reconcile is two steps, Observe and then what it calls for, and other events may come between.
- **The controllers.** Three classes follow the Go methods branch by branch, over a client class
  with its header and query maps. Each method is proved to follow the functions of `Lifecycle`,
  and to send exactly the request for its own address. `World` steps by the same `Address`,
  `BuildRequest`, `ObserveEffect` and `CreateEffect`; a Delete changes nothing in its custom
  resource, so there the result of `DeleteEffect` plays no part.
- **The HTTP client.** Header and query loops over unordered maps, and the body across signing.
- **Deep copy.** Structs are datatypes holding nullable array or map references, so nil and empty
  stay apart and sources may share inner arrays. Copies are proved equal, fresh, and separate, and
  of writes to a list and to its copy, in any order, each is proved to see only its own.

Main results:

- Every live resource that some Create made is charged to exactly one event of the run: a Create
  that posted a request for what the spec said that its worker read at the preceding Observe, field
  by field, and it has been live with that configuration ever since. It is held by its owner, or that Create returned an
  error although it took effect, or a later Observe of its owner got a decodable 404 for it while
  it was live. With services that do not deny what is there and volumes that stay in their
  project, the third case is empty: held if and only if that Create returned no error.
- Under those two conditions the live resources of a custom resource are exactly those that its
  lost Creates made and that are still there, and the one at its address if it is there.
- After any run at all, a custom resource keeps at most one live resource, as long as no reply is
  lost, no project edited and no item denied from then on, if and only if it is *sound*: nothing it
  made is live elsewhere than at its address, and a Create it is about to make finds nothing live
  and posts to the project the spec names now; if it is being deleted, what is live and what is
  about to be created are at most one together. Each of the three conditions is needed: a lost
  reply, an edited project and a 404 for an item that is there each lead, alone, to two.
- No two custom resources of a kind hold one id, and no step for one resource changes another
  resource or a remote resource that another one made. This rests on the addresses being
  injective; a volume's address is its own exactly when the path separator occurs in it once.
- A resource is being deleted exactly when its deletion was requested. Requested deletions end
  after boundedly many faithful reconciles, whatever happens to other resources and to the
  resource's own spec, and however many of its own Observes fail and of its own Deletes fail, with
  or without effect, in between. A resource is finalized exactly when, after the request, an
  Observe of it had no id to ask for or got a 404 whose body decodes, whatever its Deletes
  returned; they succeed exactly on 204. With a service whose 404s do not decode, one that holds
  an id never is.
- Update is never called.
- Every call that can lead to a request sends exactly one, and no other call sends any. Any number
  of operations through the floating IP client, which keeps the project in a shared header, each
  send their own resource's request in its own project.
- One machine describes all three kinds; the missing-id branch of Delete, where they differ, is
  unreachable.

What the code does differently from what one may expect, and the model follows the code:
a successful Create discards every other annotation; a 404 whose body does not decode is an error,
not an absence; Delete takes a 404 for an error; Create of a volume without scheduler hints panics
before it posts, so it is never created.

Assumptions built into `World.Enabled`: a service issues an id once per kind and without a slash;
a reply that Create accepts carries the id that was issued; users neither invent nor edit the id
annotation, and a spec keeps its kind; annotation writes persist; each resource has one worker.
`Honest`, `Settled` and `NothingLost` are further conditions that some results name. `Settled`
speaks of volumes, whose address holds the project. A floating IP is addressed by its id alone, and
its GET names the project in a header, so a service that answers by that header may send a 404
after a project edit for one that is there: that is not `Honest`, and results that ask for honesty
do not cover it, while those about every run do.

Run `dafny verify dfyconfig.toml` to check everything.

## Model

| member | source | states |
|---|---|---|
| `Urls.AddressText` | pkg/ucansdk/volume.go:69-91 | each collection's address as text, and each item's as its collection's, a slash and its id |
| `Urls.VolumeUrlInjective` | pkg/ucansdk/volume.go:75-85 | volume addresses agree exactly when project and id agree, if the projects or the ids are single path segments |
| `Urls.VolumeUrlUniqueIff` | pkg/ucansdk/volume.go:76 | a volume's address belongs to it alone exactly when the separator occurs in its path only where its project ends |
| `Urls.VolumeUrlAmbiguous` | pkg/ucansdk/volume.go:76 | two different volumes whose addresses are equal |
| `Urls.UnscopedUrlInjective` | pkg/ucansdk/network.go:58-68 | server and floating IP addresses agree exactly when the ids agree, whatever they contain |
| `Urls.ItemUrlInjective` | pkg/ucansdk/vm.go:144-154 | across the three services an address determines kind, project and id |
| `Lifecycle.BuildRequest` | internal/controller/volume/volume.go:196-208 | there is no request to post exactly for volumes whose scheduler hints are nil or empty |
| `Lifecycle.RequestAsksForSpec` | internal/controller/virtualmachine/virtualmachine.go:182-199 | the request built is the only one that carries the spec field by field: every block device in order, the first scheduler hint of a volume, all eight fields of a floating IP |
| `Lifecycle.AddressNamesId` | internal/controller/volume/volume.go:150-158 | the annotation that holds the id, per kind, and the address it gives within the spec's own project |
| `Lifecycle.ObserveMeans` | internal/controller/virtualmachine/virtualmachine.go:143-173 | an observation fails exactly on no decoded body or a status of 400 or more other than 404, finds the item exactly below 400, and sets status and Ready as the kind's reply says |
| `Lifecycle.CreateMeans` | internal/controller/virtualmachine/virtualmachine.go:206-226 | a Create succeeds exactly on a decoded body with a status below 400, and leaves the id as the only annotation |
| `Lifecycle.DeleteMeans` | internal/controller/floatingip/floatingip.go:259-276 | a Delete with an id succeeds exactly on 204; without one it is an error for floating IPs alone |
| `HttpClient.SetInOrderEntries` | pkg/httpclient/client.go:87-89 | after the header loop every header is some key's value and every key has set its header |
| `HttpClient.CoherentHeaders` | pkg/httpclient/client.go:67-69 | when keys of one header agree, each key's header carries that key's last written value and there are no others |
| `HttpClient.HeadersIndependentOfOrderIff` | pkg/httpclient/client.go:87-89 | the headers do not depend on map order exactly when keys of one header agree on its value |
| `HttpClient.OrdersThatDiffer` | pkg/httpclient/client.go:87-89 | otherwise two orders give different headers |
| `HttpClient.Client.ApplyHeaders` | pkg/httpclient/client.go:87-89 | the loop sets the client's headers in some order of the map |
| `HttpClient.MergedQueryEntries` | pkg/httpclient/client.go:90-96 | the values of the address come first under each key, then the client's one, and there are no other keys |
| `HttpClient.Client.ApplyQuery` | pkg/httpclient/client.go:90-96 | the loop adds one value per client entry after the address's own, in whatever order it ranges |
| `HttpClient.Client.Sign` | pkg/httpclient/auth.go:24-52 | signing succeeds exactly with both credentials and a signer that does not refuse; it drains the body and leaves a reader at offset zero over the same bytes, writes no header but the signer's, and leaves the address but for the query as the signer rewrites it |
| `HttpClient.Client.Request` | pkg/httpclient/client.go:75-113 | exactly one request is handed to the transport, and its outcome returned, if the address parses, both credentials are there and the signer does not refuse, and none otherwise; it carries exactly the data passed in, the client's headers besides those the signer writes, and the address with its query, merged for GET only, as the signer leaves it |
| `HttpClient.Client.SetHeader` | pkg/httpclient/client.go:67-69 | the last write for a key wins and other keys stay |
| `UcanSdk.GetVolume` | pkg/ucansdk/volume.go:75-79 | one GET to the volume's own address |
| `UcanSdk.DelVolume` | pkg/ucansdk/volume.go:81-85 | one DELETE to the volume's own address |
| `UcanSdk.CreateEip` | pkg/ucansdk/network.go:70-74 | one POST of the body to the collection |
| `VirtualMachineController.External.Observe` | internal/controller/virtualmachine/virtualmachine.go:129-174 | another kind is refused; no id is absence without a request; otherwise one GET of the own address, success exactly on a decoded body with a status below 400 or 404, and the effect of Lifecycle |
| `VirtualMachineController.External.Create` | internal/controller/virtualmachine/virtualmachine.go:176-234 | the request for the spec is posted once, with success exactly on a decoded body with a status below 400, and the accepted reply's id replaces the annotations |
| `VirtualMachineController.External.Delete` | internal/controller/virtualmachine/virtualmachine.go:251-274 | one DELETE of the own address, successful only on 204, silent success without an id |
| `VirtualMachineController.TranslateBlockDevices` | internal/controller/virtualmachine/virtualmachine.go:188-199 | same length and order, six fields carried over exactly, the others left at zero |
| `VolumeController.External.Observe` | internal/controller/volume/volume.go:144-188 | the same for volumes, within the spec's project |
| `VolumeController.External.Create` | internal/controller/volume/volume.go:190-236 | the same for volumes, panicking before any request when there is no hint |
| `VolumeController.External.Delete` | internal/controller/volume/volume.go:253-276 | the same for volumes |
| `FloatingipController.External.Observe` | internal/controller/floatingip/floatingip.go:144-189 | the same for floating IPs, with the client naming the resource's project whenever something is sent |
| `FloatingipController.External.Create` | internal/controller/floatingip/floatingip.go:191-238 | the same for floating IPs, with the client naming the resource's project |
| `FloatingipController.External.Delete` | internal/controller/floatingip/floatingip.go:253-277 | the same for floating IPs, except that a missing id is an error |
| `FloatingipController.External.NamespaceCarried` | internal/controller/floatingip/floatingip.go:158-159 | a request of a client whose namespace key stands alone carries the named project in whatever order headers are set, if the signer does not write that header |
| `FloatingipController.Serve` | internal/controller/floatingip/floatingip.go:144-277 | over any operations on any floating IPs through one client, and any edits in between, each operation works on the value its resource then has, sends exactly the one request that value asks for, naming its project, whenever a request can leave, and makes of the value what the reply calls for |
| `Conservation.StepKeeps` | internal/controller/virtualmachine/virtualmachine.go:129-274 | every event keeps the invariant of all reachable states |
| `Conservation.Reachable` | hack/helpers/controller/KIND_LOWER/KIND_LOWER.go.tmpl:126-154 | the invariant holds after every run |
| `Provenance.EveryMadeResourceIsCharged` | internal/controller/virtualmachine/virtualmachine.go:182-226 | each live made resource was made by exactly one Create of the run, is configured field by field as the spec read at the Observe before it says, and has been live unchanged since |
| `Provenance.OrphanIsExplained` | internal/controller/virtualmachine/virtualmachine.go:143-153 | it is held only if that Create returned no error, and otherwise, if it returned none, a later Observe got a decodable 404 while it was live |
| `Provenance.HeldIffAccepted` | internal/controller/floatingip/floatingip.go:209-233 | with honest services and settled projects it is held exactly when that Create returned no error |
| `Provenance.EntryHasEvent` | internal/controller/volume/volume.go:214-232 | every entry of the history was written by one event: a Create that took effect, with its own spec, id and answer, or a decodable 404 for the id held |
| `Provenance.EffectsDiffer` | internal/controller/volume/volume.go:214-232 | no two Creates of a run took effect with one id of one kind |
| `Provenance.ReadAtObservation` | hack/helpers/controller/KIND_LOWER/KIND_LOWER.go.tmpl:126-154 | a pending Create works from the spec that its worker's last step, an Observe, read |
| `Provenance.LiveSince` | internal/controller/virtualmachine/virtualmachine.go:236-249 | what is live now was live with the same configuration at every state since it was logged |
| `Guarantees.RebindOnlyAfterGone` | internal/controller/virtualmachine/virtualmachine.go:143-153 | a recorded id is never dropped, and replaced only after an observation found it gone |
| `Guarantees.LiveIsHeldIffAcknowledged` | internal/controller/floatingip/floatingip.go:209-233 | with honest services and settled projects a live made resource is held exactly when its Create was acknowledged |
| `AtMostOne.LiveCreationsAre` | internal/controller/volume/volume.go:158-167 | then the live creations of a resource are its live lost ones and, apart from those, the one at its address if there |
| `AtMostOne.AtMostOneIff` | internal/controller/volume/volume.go:158-232 | after any run, of any resource, at most one item is live through every harmless continuation exactly when the resource is sound |
| `AtMostOne.UnsoundIsJoined` | internal/controller/volume/volume.go:214-232 | otherwise some harmless continuation ends with two |
| `AtMostOne.SoundStep` | internal/controller/volume/volume.go:144-236 | every harmless event keeps a resource sound |
| `AtMostOne.AtMostOneIffNoneLost` | internal/controller/volume/volume.go:214-232 | after a run with honest services and settled projects that is so exactly when no live item is of a lost Create |
| `AtMostOne.AtMostOneLive` | internal/controller/volume/volume.go:214-232 | in a run in which nothing is lost there is at most one |
| `AtMostOne.FinalizedLeavesOnlyLost` | internal/controller/volume/volume.go:158-188 | what a finalized resource leaves live was made by its lost Creates |
| `Guarantees.IdsAreNotShared` | internal/controller/floatingip/floatingip.go:231-233 | no two resources of a kind hold one id in any run |
| `Guarantees.DeleteTargetsItsOwn` | internal/controller/floatingip/floatingip.go:259-270 | a Delete that reaches anything reaches what the same custom resource made |
| `Guarantees.WorkIsIsolated` | internal/controller/floatingip/floatingip.go:259-270 | a step for one resource changes no other custom resource and no remote resource another one made |
| `Guarantees.NeverUpdated` | internal/controller/virtualmachine/virtualmachine.go:169-173 | no run calls Update: an existing resource is always reported up to date |
| `Guarantees.ConfigurationIsKept` | internal/controller/virtualmachine/virtualmachine.go:236-249 | no event changes the configuration or origin of a resource that stays |
| `Guarantees.DeleteAlwaysHasId` | internal/controller/floatingip/floatingip.go:259-263 | Delete's missing-id branch is unreachable |
| `Convergence.OthersDeleteElsewhere` | internal/controller/volume/volume.go:259-264 | another worker's Delete never reaches this resource's item, at the address its id was posted at |
| `Convergence.RoundProgress` | internal/controller/volume/volume.go:253-276 | a faithful reconcile of a deleted resource, with failing Observes and Deletes of any outcome before and after it and events of others throughout, finalizes it or shortens what remains of its item |
| `Convergence.DeletionConverges` | internal/controller/volume/volume.go:144-188 | after any run in which its deletion was requested, with the worker at rest, more such reconciles than remain finalize the resource, whatever happens elsewhere and to its own spec |
| `Convergence.RoundIsRun` | hack/helpers/controller/KIND_LOWER/KIND_LOWER.go.tmpl:126-154 | such a reconcile is a run of events |
| `History.SpecIsLastGiven` | hack/helpers/controller/KIND_LOWER/KIND_LOWER.go.tmpl:126-154 | a resource is there exactly if it was submitted, with the spec last given to it |
| `History.AnnotationsAreLastGiven` | internal/controller/virtualmachine/virtualmachine.go:222-226 | annotations are those of the submission, user's edit or accepted Create that came last, and a Create leaves only its id |
| `History.ItemIsAsLastChanged` | internal/controller/volume/volume.go:214-276 | what is at an address, and its status, is what the last POST, third party, DELETE, ageing or change of its own left there |
| `History.ReadyIff` | internal/controller/virtualmachine/virtualmachine.go:164-167 | Ready holds exactly when some observation saw the resource exist with the status "Running", "available" or "running" of its kind, and is never cleared |
| `History.StatusIsLastDecoded` | internal/controller/volume/volume.go:175-181 | the status is that of the last observation that decoded a body |
| `History.DeletingIff` | hack/helpers/controller/KIND_LOWER/KIND_LOWER.go.tmpl:126-154 | a resource is being deleted exactly when its deletion was requested |
| `History.FinalizedIff` | internal/controller/volume/volume.go:150-174 | a resource is finalized exactly when its deletion was requested and a later Observe of it had no id or got a 404 whose body decodes |
| `History.DeleteSucceedsIff` | internal/controller/volume/volume.go:264-273 | in every run a Delete succeeds exactly if it is answered 204, whatever became of the item |
| `History.UndecodableNeverFinalizes` | internal/controller/volume/volume.go:158-174 | a resource that holds an id is never finalized while no 404 for it decodes |
| `History.FailuresChangeNothing` | internal/controller/floatingip/floatingip.go:159-173 | any failing calls leave annotations, status and conditions as they were |
| `History.HintlessVolumeIsNeverPosted` | internal/controller/volume/volume.go:205-207 | a volume that never had a scheduler hint is never posted and holds no id, in any run |
| `Refinement.EveryStepRefines` | internal/controller/volume/volume.go:150-156 | every event is a move of one machine for every resource of every kind |
| `Witnesses.LostReplyDuplicates` | internal/controller/virtualmachine/virtualmachine.go:206-210 | a run with honest services where a lost reply leads to two live resources |
| `Witnesses.ProjectEditDuplicates` | internal/controller/volume/volume.go:158 | a run with honest services and no lost reply where an edited project leads to two live resources |
| `Witnesses.LieDuplicates` | internal/controller/volume/volume.go:158-167 | a run without project edits or lost replies where a 404 for an item that is there leads to two live resources |
| `Witnesses.DeletionEnds` | internal/controller/volume/volume.go:253-276 | a run in which a Delete succeeds although the item stays, another fails on 404 although it removed the item, and the resource ends finalized with nothing left |
| `VolumeCopy.CopyHints` | apis/osgalaxy/v1alpha1/zz_generated.deepcopy.go:169-176 | equal hosts, nil kept, in a fresh array |
| `VolumeCopy.CopyAllHints` | apis/osgalaxy/v1alpha1/zz_generated.deepcopy.go:423-432 | equal hints whose host arrays are fresh and pairwise distinct |
| `VolumeCopy.CopyVolume` | apis/osgalaxy/v1alpha1/zz_generated.deepcopy.go:349-355 | an equal volume with arrays of its own |
| `VolumeCopy.CopyVolumeList` | apis/osgalaxy/v1alpha1/zz_generated.deepcopy.go:376-397 | an equal list, nil and empty kept apart, all arrays fresh and pairwise distinct, the source untouched even if it shares arrays |
| `VmCopy.CopyMap` | apis/osgalaxy/v1alpha1/zz_generated.deepcopy.go:285-291 | a fresh map with the same entries, whatever the range order |
| `VmCopy.CopyVmParameters` | apis/osgalaxy/v1alpha1/zz_generated.deepcopy.go:278-302 | equal slices and map, nil kept, all fresh |
| `VmCopy.CopyVmList` | apis/osgalaxy/v1alpha1/zz_generated.deepcopy.go:231-252 | an equal list with arrays and maps of its own |
| `VmNonInterference.CopyThenWrite` | apis/osgalaxy/v1alpha1/zz_generated.deepcopy.go:231-302 | any writes through GetItems of a list and of its copy, to slots and below, in any order: the copy ends with the value its own writes give, and so does the list unless it shared arrays and was written to |
| `ManagedList.GetItems` | apis/osgalaxy/v1alpha1/zz_generated.managedlist.go:12-36 | one pointer per slot, in order; none for a nil list |
| `ManagedList.StoreThroughItem` | apis/osgalaxy/v1alpha1/zz_generated.managedlist.go:29-36 | a write through item i changes slot i and nothing else |
| `VolumeNonInterference.CopyThenWrite` | apis/osgalaxy/v1alpha1/zz_generated.deepcopy.go:376-397 | the same for volumes, with writes to slots, hints and the hosts of hints |

## Left out

- crossplane-runtime: finalizer handling beyond the last one, pending and succeeded annotations, management policies, conflicts, requeues and rate limits; the documented observe-then-act schedule stands in for them.
- Conditions that crossplane-runtime sets itself: the history results count only the writes of these controllers.
- JSON text: encoders and decoders are parameters, and a decoded body is its id and status.
- The network libraries: parsing, header canonical form and query encoding are parameters; the transport answers anything; TLS, timeouts, closing and logging are absent.
- The signer and the payload hash: which headers the signer writes, how it rewrites the query and which methods and addresses it refuses are parameters, and it writes any values in those headers; the variable that is hashed is shadowed at pkg/httpclient/auth.go:36, and nothing is stated about the hash.
- HttpClient.Client.Request: `RawGET`, `PUT` and the timeout are not modelled; one request per call is one that the client hands to Go's transport, which may follow redirects and send more.
- Connect, credentials and Setup: thin calls into libraries.
- Urls.VolumeUrlInjective: addresses are compared as text; how a server reads escapes or a question mark in an id is not modelled.
- Request fields that are never assigned: only those of block devices are carried, at their zero values.
- VirtualMachineController.TranslateBlockDevices: Go's int is taken to be 64 bits wide.
- VolumeCopy.CopyVolumeList: library structs (metadata, resource specs and statuses) are values, so their own copies are assumed fresh and equal; an out pointer is modelled as the struct that is then stored in the slot; nil receivers are left out.
- Deep copy of floating IP lists, and DeepCopyObject: they only repeat simpler cases.
- Convergence.DeletionConverges: lingering is counted in steps that each reconcile is followed by, with a limit chosen per run; a DELETE of what lingers already does not make it linger longer.
- VolumeNonInterference.CopyThenWrite: what a write stores is newly built, and the value of a list that shares its arrays is not stated once it is written to; so too in VmNonInterference.
- The `apis/v1alpha1` types, generated getters and setters, resource definitions and scripts.
