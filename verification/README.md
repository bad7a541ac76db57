# The provider operator as one transition system

The repository is a Kubernetes operator with three reconcilers (instances, inventories,
connections) and an in-memory cluster store that stands in for a provider cloud. The store is
changed by three worker goroutines fed by bounded channels and read by clients that hold no lock;
the reconcilers meet in an API server with optimistic concurrency. This project models all of it as
one state machine and proves what the operator promises for every interleaving.

`dafny verify dfyconfig.toml` checks the whole project.

## How it is built

| layer | modules | what it is |
|---|---|---|
| values | `Types`, `Conditions`, `InstanceInfo` | the objects, `SetStatusCondition`, the string-map encoding of a cluster |
| the store | `ClusterStore`, `StoreLaws`, `FakeClusterStore` | backing arrays, shared slice header, channels and hands as a value; its laws; the goroutine bodies on real arrays, each proved to be one step of that value |
| the world | `Api`, `Reconcilers`, `Operator` | every version of every object, the calls and their faults, the three programs call by call, and the interleaving of goroutines, workers, users and the garbage collector |
| what the world says | `Answers`, `Environment` | each call, each reply's outcome and each thing the environment may do, in the source's own keys, texts and constants |
| the invariant | `Growth`, `Invariants`, `SharedSteps`, `ThreadSteps`, `Safety` | what nobody takes back (a rely condition), what holds at every state, and the proof that each step keeps it |
| what always holds | `Theorems`, `Discovery`, `AddPipeline`, `Duplicates`, `Ownership`, `Provenance`, `Statuses`, `Artefacts`, `Neighbours`, `Existence`, `Takeover`, `Writes`, `Quiescence`, `Drain` | the promises, over whole runs |
| what can happen | `Walks`, `Race`, `Tightness`, `Orphans`, `Fixpoint`, `Bindings`, `Deletion` | runs that exist, exact conditions for the promises the code does not keep unconditionally, and that what can settle does |
| the code | `Running`, `InstanceController`, `InventoryController`, `ConnectionController` | the reconcilers statement by statement, as methods that change objects and loop over lists, each proved to follow its program in `Reconcilers` |

A run is a list of actions from `INITIAL`. A goroutine's step is one call and its reply. The
environment chooses which version a read returns (any one ever written, or not found), whether a
call fails, whether a write that took effect loses its reply, and the time. A status write succeeds
only over the latest version, replaces only the status, and makes no new version when it changes
nothing. A send on a full channel does not happen until there is room. Users may create, edit and
delete every object between any two calls, but never write a status. The garbage collector may at any
time delete a Secret or ConfigMap whose controlling connection, by name and uid, is gone.

The three programs and the world are functions, so `Answers` and `Environment` say once more, lemma by
lemma and without those functions, which call each point makes, where each reply leads and what each
call, user and worker may change, with every key, text and constant written out. Only those with more
to them than a case are in the table below.

Nothing in the repository sends on `deleteCluster`, so the theorems about runs are about runs
without deletes (`NoDeletes`), with updates allowed unless a row says otherwise. The delete worker is
modelled and proved on its own, and `Deletion` shows what it would do to readers.

## What the code does and does not promise

- **Bindings are safe when written.** `ReadyForBinding=True` is only ever written over a spec whose
  service ID is in the store's list, although three controllers and a stale cache lie between the
  two, and only after some version of its inventory said that it is synced and listed the service
  (`BindingWasOffered`). An edit does not take it back: a bound connection stays True over a new spec
  until the next reconcile. A run from the start binds a connection and edits it to an ID that no
  cluster has (`BoundThenEdited`).
- **IDs are not unconditionally unique.** They stay unique exactly when no create sends an ID that its
  scan could not see: one appended since its snapshot, in the worker's hand or in the buffer
  (`UniqueIffNothingUnseen`). Then no two instances ever hold the same ID; creates that each find the
  store drained are such a case. Otherwise two creates for one name are both accepted
  (`UniquenessNeedsTurns`), and the damage is bounded: with at most K creates at a time no ID ever has
  more than K + 6 copies, and some run attains that.
- **A create whose status write is lost leaves an orphan.** The write records the ID exactly if the
  version its reconcile read is still the latest and the write is not refused
  (`ReadyRecordsIffLatest`); a run from the start loses it (`OrphanFromTheStart`). From then on every
  create for that ID answers "already exists", and the instance never gets the ID, however its
  reconciles interleave, exactly if no reconcile of its latest version is past its scan or scanning a
  list without the ID (`OrphanIffNoneCanRecord`).
- **Returning without an error does not mean the status was stored.** Each `updateStatus` treats a
  conflict as success: what is returned is the same whether the status was stored or not, and it was
  stored exactly if the version that was read is still the latest (`WritesAreStoredIffLatest`). One run
  from the start returns an error as if it had been recorded and stores nothing
  (`ConflictIsSwallowedFromTheStart`); another returns plain success, asks for no requeue and stores
  nothing (`RetryConflictFromTheStart`). A successful instance reconcile sets a phase but no condition,
  and the instance's `updateStatus` uses the connections' condition type
  (`controllers/dbaas/providerinstance_controller.go:167`); both are modelled as they stand.
- **Another controller's Secret or ConfigMap is left alone.** While somebody else controls the object of
  that name, no reconcile changes it, and one that reads it fails (`ForeignIsLeftAlone`,
  `SecretAnswers`).
- **A bound connection's Secret and ConfigMap exist** while users leave these two objects alone and no
  reconcile of another life of the connection takes one over. A living connection that has both keeps
  both exactly as long as no put for another life lands over the newest version of one
  (`BothStayIffNoneTaken`). It can land: a reconcile that still holds the deleted connection takes over
  the new Secret, and the garbage collector then deletes it (`EarlierLifeLosesTheSecret`).
- **The fall-through after `updateClusterDetails` fails is dead code** with the repository's own
  service, because every cluster it returns has an ID.
- The date literal at `controllers/dbaas/testutil/fakeclient.go:22` has a five-digit year, so parsing
  it leaves the zero time; the model uses the zero time.

## Model

| member | source | states |
|---|---|---|
| Theorems.BindingIsSafe | controllers/dbaas/providerconnection_controller.go:73-151 | in every run, with stale reads, conflicts and failures, a status write that makes a connection True happens over a spec whose service ID is the ID of a cluster in the store's list |
| Theorems.BindingHasAWrite | controllers/dbaas/providerconnection_controller.go:145-151 | every stored True goes back to one such write in the same life of the object, and the status has not changed since |
| Theorems.StoredBindingIsSafe | controllers/dbaas/providerconnection_controller.go:89-99 | a stored True names a listed cluster for as long as the service ID is the one it was written over |
| Provenance.BindingWasOffered | controllers/dbaas/providerconnection_controller.go:89-99 | over every run: whenever a connection is written True, some stored version of its inventory has a True SpecSynced condition and lists the service that its spec names |
| Bindings.BoundThenEdited | controllers/dbaas/providerconnection_controller.go:73-151 | a run from the operator's start binds a connection to a listed cluster and then edits it to any unlisted ID: the stored True remains, over a spec that names no cluster |
| Bindings.Synchronizes | controllers/dbaas/providerinventory_controller.go:57-102 | an inventory reconcile that nobody disturbs stores the exact image of the list, marked synced |
| Bindings.Binds | controllers/dbaas/providerconnection_controller.go:58-151 | a reconcile of a new connection that nobody disturbs, with its service offered, creates both artefacts and stores the True status |
| Theorems.InventoryIsAMonotoneMirror | controllers/dbaas/providerinventory_controller.go:57-123 | in every run each stored inventory lists a prefix of the store's ID list, and each later version of the same life extends each earlier one, with concurrent reconciles and stale reads |
| Theorems.InstanceIDIsWriteOnce | controllers/dbaas/providerinstance_controller.go:61-154 | once a stored version of an instance has an ID, every later version of that life has the same one |
| Theorems.PhasesAreHonest | controllers/dbaas/providerinstance_controller.go:70-140 | in every stored status Ready comes with an ID and Creating without one |
| Theorems.NoInstanceDangles | controllers/dbaas/providerinstance_controller.go:104-140 | every ID ever stored is that of a cluster in the list, in the add worker's hand or in the buffer |
| Theorems.EveryClusterHasAnID | controllers/dbaas/providerinstance_controller.go:128-136 | the branch taken when cluster details have no ID is never reached |
| Theorems.NothingPanics | controllers/dbaas/testutil/fakeproviderservice.go:40-51 | no goroutine ever indexes outside the shared slice or a snapshot of it |
| Theorems.PipelineIsTheLog | controllers/dbaas/testutil/fakeclient.go:103-118 | with updates allowed, the IDs of list, hand and buffer are those of the seeds and the accepted creates in send order, and the buffer never exceeds five |
| Provenance.AcceptedWereAskedFor | controllers/dbaas/testutil/fakeproviderservice.go:74-94 | over every run: each accepted create is for the cluster that some version of its instance asks for, whose name is the parameter "name" and does not end as clients refuse it, with the ID made from the name, the parameter "cloudProvider" or "AWS", the one region, and nothing else |
| AddPipeline.PipelineIsExactlyTheLog | controllers/dbaas/testutil/fakeclient.go:112-118 | in runs that only add, list, hand and buffer are the seeds and the accepted creates in send order, contents included |
| Discovery.DiscoveryIsLinearizable | controllers/dbaas/testutil/fakeproviderservice.go:34-53 | whatever is appended, reallocated or updated between its reads, a discovery never goes out of range and reports the ID sequence of the list at the moment it read the length; without updates it offers each cluster of that list, in order, under its own ID and name and with its info |
| Duplicates.CopiesAreBounded | controllers/dbaas/testutil/fakeclient.go:170-209 | with at most K creates under way at a time, the copies of any ID in list, hand, buffer and creates that scanned too early never exceed K + 6 |
| Tightness.CopiesBoundIsAttained | controllers/dbaas/testutil/fakeclient.go:103-118 | for every positive K there is a run from the start with at most K creates under way in which an ID has exactly K + 6 copies |
| Ownership.IdsStayUnique | controllers/dbaas/testutil/fakeclient.go:183-208 | if each create first looks at a drained store, no ID occurs twice in the list or in the pipeline, at any point of the run |
| Race.OwnershipIsExclusive | controllers/dbaas/providerinstance_controller.go:104-140 | when no create sends an ID it could not see, no two instances ever store the same ID, in any of their versions |
| Race.TurnsLeaveNothingUnseen | controllers/dbaas/testutil/fakeclient.go:183-208 | creates that each first look at a drained store are such a case |
| Race.UniqueIffNothingUnseen | controllers/dbaas/testutil/fakeclient.go:179-208 | for every run: no ID occurs twice in the pipeline if and only if no create ever sent an ID appended since its snapshot, in the worker's hand or in the buffer |
| Race.RacingCreatesDuplicate | controllers/dbaas/testutil/fakeclient.go:179-208 | from any state with two idle goroutines, two instances that want one unlisted name and room for two sends, some run puts that ID in the pipeline twice |
| Race.UniquenessNeedsTurns | controllers/dbaas/testutil/fakeclient.go:183-208 | such a run exists from the operator's start |
| Orphans.ListedNamesAreRefused | controllers/dbaas/testutil/fakeclient.go:183-192 | a create that first looks at the list when its ID is there never sends in any continuation; what it reports and returns is "already exists", or the failure to write that |
| Orphans.ReadyRecordsIffLatest | controllers/dbaas/providerinstance_controller.go:128-151 | in every run, the write after a create adds the version with the new ID if and only if the version that was read is still the latest and the write is not refused; otherwise nothing is stored |
| Orphans.MakesAnOrphan | controllers/dbaas/providerinstance_controller.go:104-144 | from any state in which a create can start, an edit that overtakes its last write leaves the cluster listed, the instance without an ID and the reconcile asking for a requeue |
| Orphans.OrphanFromTheStart | controllers/dbaas/providerinstance_controller.go:104-144 | such a run exists from the operator's start, with no goroutine left under way |
| Orphans.OrphanIffNoneCanRecord | controllers/dbaas/providerinstance_controller.go:104-140 | an instance without an ID whose wanted ID is listed never gets one, in any continuation that keeps its name, if and only if no reconcile of its latest version is past its scan or scanning a snapshot without the ID |
| Writes.WritesAreStoredIffLatest | controllers/dbaas/providerconnection_controller.go:263-281 | in every run, for every status write of the three controllers: it is stored if and only if the version that was read is still the latest and the write is not refused, or the newest version already said the same; otherwise nothing changes; and what the reconcile returns is the same either way, but for the first Ready write, which asks for a requeue exactly when overtaken |
| Statuses.EveryStatusIsTold | controllers/dbaas/providerinstance_controller.go:55-154 | over every run, each stored status that differs from the version before is one of the shapes a reconcile can leave: an instance False for InventoryNotFound in phase Unknown, for BackendError in Pending or Creating, or Ready with an ID and that cluster's nine fields and regions; an inventory with its services kept and SpecSynced False, or replaced and True; a connection False with its references kept, or True with the names of its own two artefacts; every other part is as it was, and each text is the one of its cause |
| Writes.ConflictIsSwallowed | controllers/dbaas/providerinstance_controller.go:163-181 | from any state, an instance reconcile overtaken by an edit returns its error as if it had been recorded, and stores nothing |
| Writes.ConflictIsSwallowedFromTheStart | controllers/dbaas/providerinstance_controller.go:72-82 | such a run exists from the operator's start |
| Writes.RetryConflictIsSwallowed | controllers/dbaas/providerinstance_controller.go:140-153 | from any state in which a create can start: when the first Ready write is refused and the second is overtaken by an edit, the reconcile returns success without a requeue, and nothing of its status is stored |
| Writes.RetryConflictFromTheStart | controllers/dbaas/providerinstance_controller.go:140-153 | such a run exists from the operator's start |
| Deletion.DeleteCanPanicDiscovery | controllers/dbaas/testutil/fakeproviderservice.go:42-43 | right after a delete is applied that is so if and only if the list was already too short, or held the deleted ID and had one cluster left to read |
| Deletion.DeleteHidesALiveCluster | controllers/dbaas/testutil/fakeclient.go:120-132 | a scan that has a listed cluster still to read, then a delete of another one and an append: the scan misses the cluster, which stays listed, if and only if it was the last one and the deleted one lay behind the scan |
| Deletion.GetMissesALiveCluster | controllers/dbaas/testutil/fakeclient.go:211-222 | in that case a get for the ID, listed all along, ends in "could not find cluster" |
| Deletion.GetMissesFromTheStart | controllers/dbaas/testutil/fakeclient.go:211-222 | such a run exists from the operator's start, with one delete sent |
| Artefacts.ArtefactKeysInjective | controllers/dbaas/providerconnection_controller.go:180-188 | the names of a Secret and of a ConfigMap determine the connection they belong to |
| Artefacts.ConnectionsAreIsolated | controllers/dbaas/providerconnection_controller.go:180-249 | no run of other goroutines, workers and users that leaves a connection's artefacts to it changes its Secret or its ConfigMap |
| Neighbours.ForeignIsLeftAlone | controllers/dbaas/providerconnection_controller.go:193-195 | over every run: while the newest Secret or ConfigMap of a connection's name has a controller that is not a connection of that name, no call of any reconcile changes that object's history |
| Neighbours.RunsPutOverClaimable | controllers/dbaas/providerconnection_controller.go:180-249 | in every run a reconcile puts an artefact only where it read none, or over a version that nobody or a connection of its name controls |
| Existence.BoundConnectionsHaveArtefacts | controllers/dbaas/providerconnection_controller.go:121-145 | while users leave this connection's Secret and ConfigMap alone and no put of another life lands over what the current life owns, every True version of the current life refers to both by name, and the newest version of each is there as this life wants it, whatever the garbage collector does |
| Takeover.StepKeepsBoth | controllers/dbaas/providerconnection_controller.go:180-249 | at any step that leaves the connection and its artefacts to the operator, in any state whose reconciles put what their own lives want, as they do in every run (`RunsPutOwn`), a living connection that has both keeps both if and only if the step is not a put for another life that lands over the newest version of one of them |
| Takeover.BothStayIffNoneTaken | controllers/dbaas/providerconnection_controller.go:180-249 | from any state of any run in which a living connection has both, and in any continuation in which users leave it and them alone: it has both at every later point if and only if no such put lands |
| Bindings.EarlierLifeLosesTheSecret | controllers/dbaas/providerconnection_controller.go:180-205 | such a put can land: a run from the start in which users touch no artefact and a True connection's Secret is deleted |
| Quiescence.StatusWritesDieOut | controllers/dbaas/providerinstance_controller.go:70-154 | an instance applied once, with its inventory found, only adds in the store and no errors but conflicts, has at most three status versions ever, and its latest is at a named stage |
| Fixpoint.FixedIffNothingChanges | controllers/dbaas/providerinstance_controller.go:70-154 | for every such run: the instance's history never changes again in any such continuation if and only if its create has failed for good, or its cluster is stored as a lookup finds it and no scan under way can miss it; the ordinary create, append, get is such a case with two versions |
| Fixpoint.FixpointIsReached | controllers/dbaas/providerinstance_controller.go:70-154 | from every such run, a continuation with at most two more reconciles reaches that fixpoint |
| Fixpoint.SettledIsAFixpoint | controllers/dbaas/providerinstance_controller.go:163-181 | once the fixpoint is reached, no reconcile in the rest of the run changes the status |
| Drain.CreatedClusterIsGotten | controllers/dbaas/testutil/fakeclient.go:183-221 | over whole runs: a create is sent whose ID is nowhere in the pipeline; later, with the cluster listed, a reconcile of an instance that holds the ID gets exactly the cluster that was sent, writes no other ID and no other info, writes nothing new over a version that holds them, and returns success, a requeue, or the failure of its own write |
| Drain.GetAfterDrainFinds | controllers/dbaas/providerinstance_controller.go:117-140 | a reconcile that looks up an ID already listed never reports a missing cluster, goes on to store Ready, the same ID and the info of the first cluster with it, and can return as an error only the failure of its own writes |
| AddPipeline.RunPipelineGrows | controllers/dbaas/testutil/fakeclient.go:103-118 | over any run that only adds, the pipeline keeps what it had as a prefix |
| Safety.CallKeeps | controllers/dbaas/providerinstance_controller.go:55-154 | any call of any reconcile, with any reply, keeps the shared invariant and leaves the caller's own knowledge true |
| Safety.StepKeeps | controllers/dbaas/testutil/fakeclient.go:103-148 | any step of anybody but the delete worker keeps the whole invariant |
| Safety.RunKeeps | controllers/dbaas/testutil/fakeclient.go:67-148 | the invariant holds after every run without deletes |
| Growth.RunGrows | controllers/dbaas/testutil/fakeclient.go:112-118 | over any run without deletes, object versions, accepted creates and listed IDs only extend, and headers read earlier still show prefixes of the list |
| Invariants.ThreadStable | controllers/dbaas/testutil/fakeclient.go:179-192 | what a goroutine has concluded from its reads stays true under everybody else's steps |
| StoreLaws.SwapDeleteRemovesOne | controllers/dbaas/testutil/fakeclient.go:120-132 | swap-delete takes the first match, and nothing else, out of the multiset of clusters, and leaves the list alone when there is none |
| StoreLaws.SwapDeleteKeepsOtherLookups | controllers/dbaas/testutil/fakeclient.go:123-130 | with unique IDs, the deleted ID is gone, IDs stay unique, and every other lookup answers as before |
| StoreLaws.ReplaceKeepsIds | controllers/dbaas/testutil/fakeclient.go:134-145 | an update leaves the ID sequence alone, puts the new cluster at the first match and changes no other position; its own lookup then finds the new cluster, and other lookups answer as before |
| StoreLaws.WorkersOnLists | controllers/dbaas/testutil/fakeclient.go:112-145 | on slices with spare room, append, replace and swap-delete compute the list functions the other laws are about |
| StoreLaws.AddIsApplied | controllers/dbaas/testutil/fakeclient.go:112-118 | the add worker empties its hand and puts what it held at the end of the list, with or without reallocation |
| StoreLaws.UpdateIsApplied | controllers/dbaas/testutil/fakeclient.go:134-145 | the update worker empties its hand, and the list has the held cluster in place of the first match |
| StoreLaws.DeleteIsApplied | controllers/dbaas/testutil/fakeclient.go:120-132 | the delete worker empties its hand, and the list loses the first match by swap-delete |
| StoreLaws.ChannelsAreQueues | controllers/dbaas/testutil/fakeclient.go:105-107 | the update and delete channels hold five and hand over what is sent in the order it is sent |
| StoreLaws.FoundOnceListed | controllers/dbaas/testutil/fakeclient.go:211-220 | a cluster whose ID nothing before it in the pipeline has is what a lookup finds, exactly once it is listed |
| ClusterStore.SnapshotKeepsIds | controllers/dbaas/testutil/fakeclient.go:179-184 | a header copied earlier keeps showing the IDs of a prefix of the list through every step but a delete, also across reallocation |
| ClusterStore.SnapshotKeepsClusters | controllers/dbaas/testutil/fakeclient.go:211-220 | without updates it keeps showing the clusters themselves |
| ClusterStore.IdsGrow | controllers/dbaas/testutil/fakeclient.go:112-145 | one step adds an accepted create's ID to the end of the pipeline and otherwise leaves the pipeline's IDs alone; the list's IDs only extend |
| ClusterStore.ListGrows | controllers/dbaas/testutil/fakeclient.go:112-118 | the same for the clusters themselves when nothing is updated |
| ClusterStore.FirstIndex | controllers/dbaas/testutil/fakeclient.go:123-124 | the first position with an ID, or the length when no cluster has it |
| FakeClusterStore.FakeClusters.constructor | controllers/dbaas/testutil/fakeclient.go:103-110 | the store starts with the three seed clusters and empty channels |
| FakeClusterStore.FakeClusters.SendAdd | controllers/dbaas/testutil/fakeclient.go:207-207 | a send that finds room is the store's send step |
| FakeClusterStore.FakeClusters.ReceiveAdd | controllers/dbaas/testutil/fakeclient.go:113-113 | the add worker's receive moves the oldest buffered cluster into its hand |
| FakeClusterStore.FakeClusters.Reallocated | controllers/dbaas/testutil/fakeclient.go:115-115 | a full array is copied into a fresh one, with the new element after it and zero values in the spare room |
| FakeClusterStore.FakeClusters.AppendHeld | controllers/dbaas/testutil/fakeclient.go:114-116 | append on the real array, in place or into a fresh one, is the store's append step, old arrays included |
| FakeClusterStore.FakeClusters.ReceiveUpdate | controllers/dbaas/testutil/fakeclient.go:135-135 | the update worker's receive is the store's step |
| FakeClusterStore.FakeClusters.Overwrite | controllers/dbaas/testutil/fakeclient.go:139-139 | an assignment to one element changes that element of the current array and no other array |
| FakeClusterStore.FakeClusters.ReplaceHeld | controllers/dbaas/testutil/fakeclient.go:136-143 | the update loop on the real array overwrites the first match only |
| FakeClusterStore.FakeClusters.ReceiveDelete | controllers/dbaas/testutil/fakeclient.go:121-121 | the delete worker's receive is the store's step |
| FakeClusterStore.FakeClusters.SwapDeleteHeld | controllers/dbaas/testutil/fakeclient.go:122-130 | the delete loop on the real array moves the last element over the first match and truncates, and does nothing without a match |
| InstanceInfo.PopulateInstanceInfo | controllers/dbaas/testutil/fakeproviderservice.go:138-158 | what the loop builds has, key by key as written in the source, the fields and the regions of the cluster, and is the encoding that the round trip is about |
| InstanceInfo.InfoRoundTrip | controllers/dbaas/testutil/fakeproviderservice.go:138-158 | the regions can be decoded from the map, and it has exactly 9 + 2n keys: no two entries collide |
| InstanceInfo.InfoInjective | controllers/dbaas/testutil/fakeproviderservice.go:138-158 | clusters with equal info agree on everything but ID and name |
| InstanceInfo.InfoSize | controllers/dbaas/testutil/fakeproviderservice.go:150-155 | after n regions the map has 9 + 2n entries |
| InstanceInfo.InfoSays | controllers/dbaas/testutil/fakeproviderservice.go:138-158 | each of the nine keys has its own field of the cluster, and "regions.", the decimal of i + 1, ".name" and ".sqlDns" have region i's name and sqlDns |
| InstanceInfo.ItoaIsCanonical | controllers/dbaas/testutil/fakeproviderservice.go:140-140 | decimal printing uses digits only and no leading zero |
| InstanceInfo.ItoaRoundTrip | controllers/dbaas/testutil/fakeproviderservice.go:140-140 | decimal printing can be read back, so it is injective |
| InstanceInfo.RegionKeyInjective | controllers/dbaas/testutil/fakeproviderservice.go:151-154 | within a field, different region numbers give different keys |
| InstanceInfo.RegionKeysAreNotFixed | controllers/dbaas/testutil/fakeproviderservice.go:139-153 | no region key is one of the nine fixed keys |
| Conditions.SetKeepsOneOfEach | controllers/dbaas/providerconnection_controller.go:273-273 | setting a condition keeps at most one entry per type |
| Conditions.SetDecides | controllers/dbaas/providerinventory_controller.go:107-113 | setting a condition decides its type and no other |
| Conditions.SetChangesOneEntry | controllers/dbaas/providerconnection_controller.go:266-273 | entry by entry: the first entry of the type, or a new one at the end, has the given status, reason and message; its transition time is now if there was no such entry or its status differed, and the old one otherwise; every other entry is unchanged and in its place |
| Conditions.SetIsIdempotent | controllers/dbaas/providerinstance_controller.go:166-173 | repeating the same verdict at a later time changes nothing, transition time included |
| Types.IndexOf | controllers/dbaas/testutil/fakeclient.go:184-186 | the first occurrence of a name, or the length when there is none: the one search behind clusters, conditions and services |
| Reconcilers.FirstService | controllers/dbaas/providerconnection_controller.go:172-176 | the first service with an ID, or the number of services when none has it |
| ThreadSteps.InstanceNextOK | controllers/dbaas/providerinstance_controller.go:70-154 | each reply that fits the shared state leads an instance reconcile to a point whose knowledge is true |
| ThreadSteps.InventoryNextOK | controllers/dbaas/providerinventory_controller.go:71-102 | likewise for inventory reconciles: what was found so far is a prefix of the list |
| ThreadSteps.ConnectionNextOK | controllers/dbaas/providerconnection_controller.go:73-151 | likewise for connection reconciles: past the inventory lookup the service ID is a listed cluster's |
| ThreadSteps.ServeKeeps | controllers/dbaas/providerconnection_controller.go:274-279 | a call made by a goroutine whose knowledge is true keeps every stored version in order |
| ThreadSteps.ServeFits | controllers/dbaas/providerconnection_controller.go:274-279 | every reply is true of the state it leaves: a read shows a stored version, an answered write is the newest version, and a conflict means that the base was not |
| ThreadSteps.FoundIsListed | controllers/dbaas/providerconnection_controller.go:160-178 | a service found in any version of an inventory is a cluster of the store's list |
| Answers.ServiceSays | controllers/dbaas/testutil/fakeproviderservice.go:43-48 | a cluster is offered under its own ID and name, with an info that has its nine fields and its regions, and nothing else |
| Discovery.ImageOffers | controllers/dbaas/testutil/fakeproviderservice.go:42-50 | the image of a list offers each of its clusters so, in order |
| Answers.WantedSays | controllers/dbaas/testutil/fakeproviderservice.go:74-91 | the cluster that a create stands for, field by field, from the instance's own parameters |
| Answers.CreateAnswers | controllers/dbaas/testutil/fakeclient.go:170-181 | a create gets to look at the list if and only if its name is neither empty nor some text followed by the reserved suffix; the two refusals have their own texts |
| Answers.CreateScanAnswers | controllers/dbaas/testutil/fakeclient.go:183-208 | the scan stops at the wanted ID with "already exists"; one that met it nowhere has its cluster: Ready, its ID and its info |
| Answers.GetScanAnswers | controllers/dbaas/testutil/fakeclient.go:216-221 | the scan stops at the instance's ID and has that cluster; one that met it nowhere fails with "could not find cluster" |
| Answers.ReadyAnswers | controllers/dbaas/providerinstance_controller.go:140-153 | a stored Ready ends in success and an overtaken one in a requeue; a failed one is tried once more with a True condition that carries the failure's text |
| Answers.DiscoverScanAnswers | controllers/dbaas/testutil/fakeproviderservice.go:42-50 | each cluster read is added at the end under its own ID, name and info; after the last, what was found is what is stored as synced |
| Answers.ClusterInstanceSays | controllers/dbaas/providerconnection_controller.go:160-178 | a service is found if and only if some condition has type SpecSynced and is True and some service has the ID, and then it is the first such; of the two refusals, "not yet in-synced" is given exactly to an inventory with no such condition |
| Answers.ServiceAnswers | controllers/dbaas/providerconnection_controller.go:73-99 | the reconcile goes on with that service, and else records ConnectionNotReady with the refusal, or InventoryNotFound |
| Answers.ClaimedSays | controllers/dbaas/providerconnection_controller.go:189-199 | an artefact can be claimed if and only if nobody or a connection of this name controls it; claimed, it has this owner, the four labels and the constant data |
| Answers.SecretAnswers | controllers/dbaas/providerconnection_controller.go:180-205 | a Secret of another controller is not put over, and the reconcile fails; one that is as wanted is left, any other is updated over the version that was read, a missing one is created |
| Answers.ConfigMapAnswers | controllers/dbaas/providerconnection_controller.go:224-249 | the same for the ConfigMap, after which the status carries both names and True |
| SharedSteps.InstanceWriteKeeps | controllers/dbaas/providerinstance_controller.go:174-179 | a versioned instance status write keeps the write-once ID and the honest phase |
| SharedSteps.InventoryWriteKeeps | controllers/dbaas/providerinventory_controller.go:113-121 | a versioned inventory status write keeps the mirror monotone |
| SharedSteps.ConnectionWriteKeeps | controllers/dbaas/providerconnection_controller.go:273-279 | a versioned connection status write keeps every stored True safe |
| SharedSteps.UserKeeps | controllers/dbaas/providerinstance_controller.go:61-68 | user creates, edits and deletes keep every stored version in order |
| InstanceController.InstanceCopy.UpdateClusterDetails | controllers/dbaas/providerinstance_controller.go:183-191 | sets the ID and an info that has the cluster's fields and regions key by key, or refuses a cluster without an ID and changes nothing |
| InstanceController.InstanceCopy.GetClusterParameter | controllers/dbaas/testutil/fakeproviderservice.go:96-104 | for every key, the value that the instance's spec gives it, or the empty string |
| InstanceController.ProviderInstanceReconciler.UpdateStatus | controllers/dbaas/providerinstance_controller.go:163-181 | sets the condition and writes: if it is answered, the newest version has this status; a conflict means that the base was overtaken, and is reported as success; anything else is an error |
| InstanceController.ProviderInstanceReconciler.CreateWithParameters | controllers/dbaas/testutil/fakeproviderservice.go:74-94 | an empty name is refused with its text and a reserved one is refused; success means that the cluster which the spec's own parameters ask for, "AWS" by default, was accepted for this very instance |
| InstanceController.ProviderInstanceReconciler.CreateCluster | controllers/dbaas/testutil/fakeclient.go:170-209 | scan then send: refuses every name that ends in the reserved suffix and every ID its snapshot shows, else the cluster that the spec asks for has been accepted for this instance |
| InstanceController.ProviderInstanceReconciler.GetCluster | controllers/dbaas/testutil/fakeclient.go:211-222 | what is found has the requested ID and is in the list as it now is |
| InstanceController.ProviderInstanceReconciler.Fail | controllers/dbaas/providerinstance_controller.go:109-115 | the error exits return the error, with the False condition stored or overtaken, or the failure to write it |
| InstanceController.ProviderInstanceReconciler.Provision | controllers/dbaas/providerinstance_controller.go:88-127 | create when the ID is empty, else get; the goroutine follows the program to its result |
| InstanceController.ProviderInstanceReconciler.Finish | controllers/dbaas/providerinstance_controller.go:128-153 | the details, the phase and the last write; the goroutine follows the program to its result |
| InstanceController.ProviderInstanceReconciler.WriteReady | controllers/dbaas/providerinstance_controller.go:140-153 | a requeue means that the base was overtaken; success means that the status, perhaps with a condition added by the second attempt, is stored or was overtaken |
| InstanceController.ProviderInstanceReconciler.Reconcile | controllers/dbaas/providerinstance_controller.go:55-154 | a reconcile, interleaved with anything, is a run of the model from its start to the result it returns |
| InventoryController.ProviderInventoryReconciler.DiscoverClusters | controllers/dbaas/testutil/fakeproviderservice.go:34-53 | the loop fixes the length, rereads the slice, never crashes, and what it found is a prefix of the list as it now is |
| InventoryController.ProviderInventoryReconciler.UpdateInventoryStatus | controllers/dbaas/providerinventory_controller.go:104-123 | sets the condition and writes: if it is answered, the newest version has this status; a conflict means that the base was overtaken, and is reported as success |
| InventoryController.ProviderInventoryReconciler.Fail | controllers/dbaas/providerinventory_controller.go:77-83 | the error exits return the given error whatever happens to the status |
| InventoryController.ProviderInventoryReconciler.Synchronize | controllers/dbaas/providerinventory_controller.go:87-101 | discovery, the new services and the True condition: the services are a prefix of the list, and success means that the status is stored or was overtaken |
| InventoryController.ProviderInventoryReconciler.Discover | controllers/dbaas/providerinventory_controller.go:71-101 | the cloud service and the listing, with their error exits; the goroutine follows the program to its result |
| InventoryController.ProviderInventoryReconciler.Reconcile | controllers/dbaas/providerinventory_controller.go:57-102 | a reconcile, interleaved with anything, is a run of the model from its start to the result it returns |
| ConnectionController.GetClusterInstance | controllers/dbaas/providerconnection_controller.go:160-178 | both loops together, on the inventory's fields: found if and only if some SpecSynced condition is True and some service has the ID, and then the first such service; else the refusal that goes with the case |
| ConnectionController.ProviderConnectionReconciler.UpdateStatus | controllers/dbaas/providerconnection_controller.go:263-281 | sets the condition and writes: if it is answered, the newest version has this status; a conflict means that the base was overtaken, and is reported as success |
| ConnectionController.ProviderConnectionReconciler.CreateOrUpdateSecret | controllers/dbaas/providerconnection_controller.go:180-205 | looks the Secret up, creates it, updates it or leaves it; success names this connection's Secret, of which some stored version has this owner, its labels and the credentials |
| ConnectionController.ProviderConnectionReconciler.CreateOrUpdateConfigMap | controllers/dbaas/providerconnection_controller.go:224-249 | the same for the ConfigMap and the connection info |
| ConnectionController.ProviderConnectionReconciler.Fail | controllers/dbaas/providerconnection_controller.go:91-98 | the error exits return the error, with the False condition stored or overtaken, or the failure to write it |
| ConnectionController.ProviderConnectionReconciler.WriteBound | controllers/dbaas/providerconnection_controller.go:142-150 | both references and a True condition are in the one status that is written; success means that it is stored or was overtaken |
| ConnectionController.ProviderConnectionReconciler.Bind | controllers/dbaas/providerconnection_controller.go:101-150 | cloud, Secret, ConfigMap, status, with their error exits; the goroutine follows the program to its result |
| ConnectionController.ProviderConnectionReconciler.Connect | controllers/dbaas/providerconnection_controller.go:73-99 | the inventory and the service in it, with their error exits; the goroutine follows the program to its result |
| ConnectionController.ProviderConnectionReconciler.Reconcile | controllers/dbaas/providerconnection_controller.go:58-151 | a reconcile, interleaved with anything, is a run of the model from its start to the result it returns |
| Running.World.Call | controllers/dbaas/providerinstance_controller.go:61-61 | after any interference, a call's reply fits the shared state, moves the caller one point on without a crash, and nothing was forgotten meanwhile |

## Left out

- Deletes in runs: nothing in the repository sends on `deleteCluster`, so theorems over runs assume none; the delete worker's step and its effect on readers are proved on their own.
- Torn reads: a slice header and one element are each read in one step, and an append writes its element and publishes the header in one step.
- Process restart, which would reset the in-memory store.
- User writes to a status, and writes by other controllers to these objects' statuses.
- Deletion of a connection, an instance or an inventory is one step: finalizers, grace periods and the order in which dependents go are not modelled; the garbage collector is, with any delay.
- Watches, the work queue and the map from instances to inventories in `SetupWithManager`: in the model any reconcile of any object may start at any time, so no theorem depends on what is enqueued.
- Liveness: no fairness is assumed, so nothing says that a worker or a reconcile eventually takes a step; a blocked send is resumed after the add worker has made room.
- `CreateCloudService` and credential retrieval: the result of the retrieval is ignored by the code (`controllers/dbaas/testutil/fakeproviderservice.go:30`); opening the service either succeeds or fails.
- Fields nothing reads: `AccountId`, `DeletedAt`, `AdditionalProperties`, the HTTP responses and their status codes.
- Timestamps are kept as the text they print as; absent timestamps are not modelled, and every cluster the store makes has both.
- The names of the provisioning parameters, the instance phases and the Secret's type and type label come from packages of the dbaas-operator that are not part of this model; the two parameter names are taken to be `name` and `cloudProvider`.
- The connection's kind, used for a label, is taken to be `ProviderConnection`; of the owner reference only the controller's name and uid are modelled.
- The texts of API errors are whatever the environment says; the texts for an artefact owned by another controller and for a put that conflicts are placeholders.
- `main.go`, the manager, health checks, logging, the registration reconcile, the custom resource definitions and all generated or configuration files.
