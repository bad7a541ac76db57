/** What holds at every state of every run without deletes from the store. */
module Invariants {
  import opened Types
  import opened Conditions
  import opened ClusterStore
  import opened Api
  import opened Reconcilers
  import opened Operator
  import opened Growth

  function Clusters(log: seq<Accepted>): (cs: seq<Cluster>)
    ensures |cs| == |log|
  {
    seq(|log|, i requires 0 <= i < |log| => log[i].cluster)
  }

  /** Some create accepted for this instance made this ID. */
  ghost predicate Made(log: seq<Accepted>, k: Key, id: string) {
    exists i :: 0 <= i < |log| && log[i].cluster.id == id && log[i].owner == k
  }

  /** The store's pipeline holds the seeds and the accepted creates, in send order. */
  predicate StoreLogged(sh: Shared) {
    Ids(Pipeline(sh.store)) == Ids(SEEDS + Clusters(sh.log))
  }

  // ------------------------------------------------------------------ histories

  predicate WriteOnce(before: InstanceStatus, after: InstanceStatus) {
    before.instanceID != "" ==> after.instanceID == before.instanceID
  }

  predicate PhaseOK(s: InstanceStatus) {
    && (s.phase.Ready? ==> s.instanceID != "")
    && (s.phase.Creating? ==> s.instanceID == "")
  }

  /** The version just before, if it belongs to the same life of the object. */
  function Previous<T>(h: History<T>, v: nat): Option<T>
    requires v < |h|
  {
    if v > 0 && h[v - 1].Live? then Some(h[v - 1].obj) else None
  }

  ghost predicate InstanceVersionOK(
    log: seq<Accepted>, k: Key, before: Option<ProviderInstance>, o: ProviderInstance)
  {
    && PhaseOK(o.status)
    && (o.status.instanceID != "" ==> Made(log, k, o.status.instanceID))
    && match before
       case None => o.status == EMPTY_INSTANCE_STATUS
       case Some(b) => WriteOnce(b.status, o.status)
  }

  predicate InventoryVersionOK(ids: seq<string>, before: Option<ProviderInventory>, o: ProviderInventory) {
    && ServiceIds(o.status.services) <= ids
    && match before
       case None => o.status == EMPTY_INVENTORY_STATUS
       case Some(b) => ServiceIds(b.status.services) <= ServiceIds(o.status.services)
  }

  predicate Bound(c: ProviderConnection) {
    IsTrue(c.status.conditions, CONNECTION_READY)
  }

  /** A version is the user's, with the status unchanged, or the controller's, with the spec unchanged. */
  predicate ConnectionVersionOK(ids: seq<string>, before: Option<ProviderConnection>, o: ProviderConnection) {
    && OneOfEach(o.status.conditions)
    && match before
       case None => o.status == EMPTY_CONNECTION_STATUS
       case Some(b) =>
         || o.status == b.status
         || (o.spec == b.spec && (Bound(o) ==> o.spec.databaseServiceID in ids))
  }

  ghost predicate InstanceHistoryOK(log: seq<Accepted>, k: Key, h: History<ProviderInstance>) {
    forall v :: 0 <= v < |h| && h[v].Live? ==> InstanceVersionOK(log, k, Previous(h, v), h[v].obj)
  }

  ghost predicate InventoryHistoryOK(ids: seq<string>, h: History<ProviderInventory>) {
    forall v :: 0 <= v < |h| && h[v].Live? ==> InventoryVersionOK(ids, Previous(h, v), h[v].obj)
  }

  ghost predicate ConnectionHistoryOK(ids: seq<string>, h: History<ProviderConnection>) {
    forall v :: 0 <= v < |h| && h[v].Live? ==> ConnectionVersionOK(ids, Previous(h, v), h[v].obj)
  }

  ghost predicate InstancesOK(sh: Shared) {
    forall k :: InstanceHistoryOK(sh.log, k, Hist(sh.instances, k))
  }

  ghost predicate InventoriesOK(sh: Shared) {
    forall k :: InventoryHistoryOK(Ids(List(sh.store)), Hist(sh.inventories, k))
  }

  ghost predicate ConnectionsOK(sh: Shared) {
    forall k :: ConnectionHistoryOK(Ids(List(sh.store)), Hist(sh.connections, k))
  }

  ghost predicate SharedOK(sh: Shared) {
    StoreLogged(sh) && InstancesOK(sh) && InventoriesOK(sh) && ConnectionsOK(sh)
  }

  // -------------------------------------------------------------------- threads

  /** An instance reconcile's copy of the object, against the status it was read with. */
  ghost predicate InstanceThreadOK(sh: Shared, k: Key, stored: InstanceStatus, o: ProviderInstance, at: InstanceAt) {
    var s := o.status;
    && WriteOnce(stored, s)
    && (s.instanceID != "" ==> Made(sh.log, k, s.instanceID))
    && match at
       case FindInventory => s == stored.(phase := Unknown)
       case OpenInstanceCloud => s == stored.(phase := Pending)
       case CreateHeader(want) => s == stored.(phase := Creating) && s.instanceID == "" && want == Wanted(o)
             && want.id != ""
       case CreateScan(want, h, i) =>
         && s == stored.(phase := Creating) && s.instanceID == "" && want == Wanted(o) && want.id != ""
         && SeesIds(sh.store, h) && i <= h.len
         && (forall j :: 0 <= j < i ==> List(sh.store)[j].id != want.id)
       case GetHeader => s == stored.(phase := Pending) && s.instanceID != ""
       case GetScan(h, i) =>
         && s == stored.(phase := Pending) && s.instanceID != ""
         && SeesIds(sh.store, h) && i <= h.len
         && (forall j :: 0 <= j < i ==> List(sh.store)[j].id != s.instanceID)
       case ErrorStatus(_) =>
         && PhaseOK(s) && !s.phase.PhaseUnset? && !s.phase.Ready?
         && s.instanceID == stored.instanceID && s.instanceInfo == stored.instanceInfo
       case DetailsErrorStatus => false
       case ReadyStatus =>
         && s == stored.(phase := Ready, instanceID := s.instanceID, instanceInfo := s.instanceInfo)
         && s.instanceID != ""
       case ReadyRetryStatus => s.phase.Ready? && s.instanceID != ""
  }

  ghost predicate InventoryThreadOK(
    sh: Shared, stored: seq<DatabaseService>, services: seq<DatabaseService>, at: InventoryAt)
  {
    match at
    case DiscoverScan(n, found) =>
      && services == stored
      && |stored| <= n <= |List(sh.store)|
      && |found| <= n
      && ServiceIds(found) <= Ids(List(sh.store))
    case SyncStatus(_) => ServiceIds(stored) <= ServiceIds(services) <= Ids(List(sh.store))
    case _ => services == stored
  }

  ghost predicate ConnectionThreadOK(sh: Shared, o: ProviderConnection, at: ConnectionAt) {
    && OneOfEach(o.status.conditions)
    && match at
       case ServiceInventory => true
       case BindStatus(failure) => Bound(o) ==> o.spec.databaseServiceID in Ids(List(sh.store))
       case _ => o.spec.databaseServiceID in Ids(List(sh.store))
  }

  ghost predicate ThreadOK(sh: Shared, pc: Pc) {
    match pc
    case InInstance(k, base, o, at) =>
      var h := Hist(sh.instances, k);
      LiveAt(h, base) && o.spec == h[base].obj.spec && InstanceThreadOK(sh, k, h[base].obj.status, o, at)
    case InInventory(k, base, o, at) =>
      var h := Hist(sh.inventories, k);
      LiveAt(h, base) && o.spec == h[base].obj.spec
      && InventoryThreadOK(sh, h[base].obj.status.services, o.status.services, at)
    case InConnection(k, base, o, at) =>
      var h := Hist(sh.connections, k);
      LiveAt(h, base) && o.(status := h[base].obj.status) == h[base].obj && ConnectionThreadOK(sh, o, at)
    case Panicked => false
    case _ => true
  }

  ghost predicate Inv(s: State) {
    SharedOK(s.sh) && forall t :: t in s.threads ==> ThreadOK(s.sh, s.threads[t])
  }

  // ------------------------------------------------------------------ stability

  lemma MadeStable(a: seq<Accepted>, b: seq<Accepted>, k: Key, id: string)
    requires a <= b && Made(a, k, id)
    ensures Made(b, k, id)
  {
    var i :| 0 <= i < |a| && a[i].cluster.id == id && a[i].owner == k;
    assert b[i] == a[i];
  }

  /** What a goroutine knows survives every step of the others. */
  lemma ThreadStable(a: Shared, b: Shared, pc: Pc)
    requires Grows(a, b) && ThreadOK(a, pc)
    ensures ThreadOK(b, pc)
  {
    match pc
    case InInstance(k, base, o, at) =>
      assert Hist(a.instances, k) <= Hist(b.instances, k);
      if o.status.instanceID != "" {
        MadeStable(a.log, b.log, k, o.status.instanceID);
      }
      assert forall j :: 0 <= j < |List(a.store)| ==>
        List(b.store)[j].id == Ids(List(b.store))[j] == Ids(List(a.store))[j] == List(a.store)[j].id;
    case InInventory(k, base, o, at) =>
      assert Hist(a.inventories, k) <= Hist(b.inventories, k);
    case InConnection(k, base, o, at) =>
      assert Hist(a.connections, k) <= Hist(b.connections, k);
    case _ =>
  }

  lemma InstanceHistoryStable(a: seq<Accepted>, b: seq<Accepted>, k: Key, h: History<ProviderInstance>)
    requires a <= b && InstanceHistoryOK(a, k, h)
    ensures InstanceHistoryOK(b, k, h)
  {
    forall v | 0 <= v < |h| && h[v].Live?
      ensures InstanceVersionOK(b, k, Previous(h, v), h[v].obj)
    {
      assert InstanceVersionOK(a, k, Previous(h, v), h[v].obj);
      if h[v].obj.status.instanceID != "" {
        MadeStable(a, b, k, h[v].obj.status.instanceID);
      }
    }
  }
}
