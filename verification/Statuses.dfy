/** The statuses there are: in every run, each stored status is what one way out of a reconcile says. */
module Statuses {
  import opened Types
  import opened Conditions
  import opened ClusterStore
  import opened InstanceInfo
  import opened Api
  import opened Reconcilers
  import opened Operator
  import opened Growth
  import opened Invariants
  import opened ThreadSteps
  import opened Safety
  import opened Answers
  import Q = Quiescence
  import E = Existence

  // ---------------------------------------------------------------- what a status says

  /** The reason of a failed instance goes with its phase, and a failed create with the name asked for. */
  ghost predicate FailureOf(before: ProviderInstance, o: ProviderInstance, reason: string, message: string) {
    var name := Given(before.spec, "name");
    || (o.status.phase.Unknown? && reason == "InventoryNotFound")
    || (o.status.phase.Pending? && reason == "BackendError")
    || (o.status.phase.Creating? && reason == "BackendError" && before.status.instanceID == ""
        && message == (if name == "" then "parameter name is required"
                       else if EndsIn(name, "invalid-cluster-creation-request")
                       then "{\"code\": 0, \"message\": \"creation failed\"}"
                       else "{\"code\": 6, \"message\": \"code = AlreadyExists\"}"))
  }

  /** A reconcile of an instance that failed: its ID and info stay, and the condition says why. */
  ghost predicate InstanceFailed(before: ProviderInstance, o: ProviderInstance, message: string) {
    exists reason, now ::
      && FailureOf(before, o, reason, message)
      && o == before.(status := before.status.(phase := o.status.phase, conditions :=
           SetStatusCondition(before.status.conditions, "ReadyForBinding", ConditionFalse, reason, message, now)))
  }

  /** The info is that of some cluster with the instance's ID. */
  ghost predicate HasInfo(status: InstanceStatus) {
    exists c: Cluster ::
      c.id == status.instanceID && SaysFields(status.instanceInfo, c) && SaysRegions(status.instanceInfo, c)
  }

  /** One that went through: Ready, with an ID and its cluster's info, and with no condition. */
  ghost predicate InstanceReady(before: ProviderInstance, o: ProviderInstance) {
    && o == before.(status := before.status.(
         phase := Ready, instanceID := o.status.instanceID, instanceInfo := o.status.instanceInfo))
    && o.status.instanceID != "" && HasInfo(o.status)
    && (before.status.instanceID != "" ==> o.status.instanceID == before.status.instanceID)
  }

  /** One that went through at the second attempt: Ready, with the text of the first attempt's failure. */
  ghost predicate InstanceRetried(before: ProviderInstance, o: ProviderInstance) {
    exists first, message, now ::
      && InstanceReady(before, first)
      && o == first.(status := first.status.(conditions :=
           SetStatusCondition(first.status.conditions, "ReadyForBinding", ConditionTrue, "Ready", message, now)))
  }

  ghost predicate InstanceTold(before: ProviderInstance, o: ProviderInstance) {
    (exists message :: InstanceFailed(before, o, message)) || InstanceReady(before, o) || InstanceRetried(before, o)
  }

  /** A failed inventory keeps its services; a synced one has found services. */
  ghost predicate InventoryTold(before: ProviderInventory, o: ProviderInventory) {
    || (exists reason, now :: (reason == "InputError" || reason == "BackendError")
                              && Synced(o, before, ConditionFalse, reason, now))
    || (exists services, now ::
          Synced(o, before.(status := before.status.(services := services)), ConditionTrue, "SyncOK", now))
  }

  predicate IsReason(reason: string) {
    reason == "InventoryNotFound" || reason == "ConnectionNotReady" || reason == "BackendError"
  }

  /** A failed connection keeps its references. */
  ghost predicate ConnectionFailed(before: ProviderConnection, o: ProviderConnection, message: string) {
    exists reason, now ::
      && IsReason(reason)
      && o == before.(status := before.status.(conditions :=
           SetStatusCondition(before.status.conditions, "ReadyForBinding", ConditionFalse, reason, message, now)))
  }

  /** A bound one refers to the two artefacts of its name. */
  ghost predicate ConnectionBound(k: Key, before: ProviderConnection, o: ProviderConnection) {
    exists now ::
      o == before.(status := ConnectionStatus(
        Some("cloud-user-credentials-" + k.name), Some("cloud-conn-cm-" + k.name),
        SetStatusCondition(before.status.conditions, "ReadyForBinding", ConditionTrue, "Ready",
                           "Successfully retrieved the connection detail\n", now)))
  }

  ghost predicate ConnectionTold(k: Key, before: ProviderConnection, o: ProviderConnection) {
    (exists message :: ConnectionFailed(before, o, message)) || ConnectionBound(k, before, o)
  }

  // ------------------------------------------------------------------------ invariant

  /** A version that is not its life's first, with another status than the one before. */
  ghost predicate InstancesTold(h: History<ProviderInstance>) {
    forall v :: 0 < v < |h| && h[v].Live? && h[v - 1].Live? && h[v].obj.status != h[v - 1].obj.status ==>
      InstanceTold(h[v - 1].obj, h[v].obj)
  }

  ghost predicate InventoriesTold(h: History<ProviderInventory>) {
    forall v :: 0 < v < |h| && h[v].Live? && h[v - 1].Live? && h[v].obj.status != h[v - 1].obj.status ==>
      InventoryTold(h[v - 1].obj, h[v].obj)
  }

  ghost predicate ConnectionsTold(k: Key, h: History<ProviderConnection>) {
    forall v :: 0 < v < |h| && h[v].Live? && h[v - 1].Live? && h[v].obj.status != h[v - 1].obj.status ==>
      ConnectionTold(k, h[v - 1].obj, h[v].obj)
  }

  ghost predicate AllTold(sh: Shared, k: Key) {
    && InstancesTold(Hist(sh.instances, k))
    && InventoriesTold(Hist(sh.inventories, k))
    && ConnectionsTold(k, Hist(sh.connections, k))
  }

  /** What an instance reconcile is about to say, over the version it read. */
  ghost predicate InstanceTells(before: ProviderInstance, o: ProviderInstance, at: InstanceAt) {
    match at
    case CreateHeader(_) => Acceptable(Given(before.spec, "name"))
    case CreateScan(_, _, _) => Acceptable(Given(before.spec, "name"))
    case ErrorStatus(message) => InstanceFailed(before, o, message)
    case ReadyStatus => HasInfo(o.status)
    case ReadyRetryStatus => InstanceRetried(before, o)
    case _ => true
  }

  ghost predicate InventoryTells(before: ProviderInventory, o: ProviderInventory, at: InventoryAt) {
    if at.SyncStatus? then InventoryTold(before, o) else o == before
  }

  ghost predicate ConnectionTells(k: Key, before: ProviderConnection, o: ProviderConnection, at: ConnectionAt) {
    match at
    case BindStatus(None) => ConnectionBound(k, before, o)
    case BindStatus(Some(message)) => ConnectionFailed(before, o, message)
    case _ => o == before
  }

  ghost predicate Telling(sh: Shared, k: Key, pc: Pc) {
    match pc
    case InInstance(j, base, o, at) =>
      j == k && LiveAt(Hist(sh.instances, k), base) ==> InstanceTells(Hist(sh.instances, k)[base].obj, o, at)
    case InInventory(j, base, o, at) =>
      j == k && LiveAt(Hist(sh.inventories, k), base) ==> InventoryTells(Hist(sh.inventories, k)[base].obj, o, at)
    case InConnection(j, base, o, at) =>
      j == k && LiveAt(Hist(sh.connections, k), base) ==> ConnectionTells(k, Hist(sh.connections, k)[base].obj, o, at)
    case _ => true
  }

  ghost predicate TellInv(s: State, k: Key) {
    AllTold(s.sh, k) && forall t :: t in s.threads ==> Telling(s.sh, k, s.threads[t])
  }

  lemma TellingStable(a: Shared, b: Shared, k: Key, pc: Pc)
    requires Grows(a, b) && ThreadOK(a, pc) && Telling(a, k, pc)
    ensures Telling(b, k, pc)
  {
    hide InstanceTells, InventoryTells, ConnectionTells, StoreGrows, InstanceThreadOK, InventoryThreadOK,
      ConnectionThreadOK;
    assert Hist(a.instances, k) <= Hist(b.instances, k);
    assert Hist(a.inventories, k) <= Hist(b.inventories, k);
    assert Hist(a.connections, k) <= Hist(b.connections, k);
  }

  // --------------------------------------------------------------------------- next

  /** A failure reported from a copy that differs from what was read in its phase only. */
  lemma FailsTold(
    before: ProviderInstance, o: ProviderInstance, pc: Pc, k: Key, base: nat, reason: string, message: string, now: nat)
    requires FailsInstance(pc, k, base, o, reason, message, now) && FailureOf(before, o, reason, message)
    requires o.spec == before.spec && o.status == before.status.(phase := o.status.phase)
    ensures InstanceFailed(before, pc.instance, message)
  {
    hide SetStatusCondition, EndsIn;
    assert FailureOf(before, pc.instance, reason, message);
  }

  /** The next point says what it should, over the version that was read. */
  ghost predicate NextTells(before: ProviderInstance, pc: Pc) {
    pc.InInstance? ==> InstanceTells(before, pc.instance, pc.atInstance)
  }

  lemma LookupTells(before: ProviderInstance, k: Key, base: nat, o: ProviderInstance, reply: Reply, now: nat)
    requires o.spec == before.spec && o.status == before.status.(phase := Unknown)
    ensures NextTells(before, InstanceNext(k, base, o, FindInventory, reply, now))
  {
    hide SetStatusCondition, HaveCluster, BeginCreate, Acceptable;
    if reply.NotFound? {
      var pc := InstanceNext(k, base, o, FindInventory, reply, now);
      InventoryLookupAnswers(k, base, o, 0, EMPTY_INVENTORY, reply.message, now);
      FailsTold(before, o, pc, k, base, "InventoryNotFound", reply.message, now);
    }
  }

  lemma OpenTells(before: ProviderInstance, k: Key, base: nat, o: ProviderInstance, reply: Reply, now: nat)
    requires o.spec == before.spec && o.status == before.status.(phase := Pending)
    ensures NextTells(before, InstanceNext(k, base, o, OpenInstanceCloud, reply, now))
  {
    hide SetStatusCondition, HaveCluster, BeginCreate, Acceptable, InstanceFailed, InstanceRetried;
    var pc := InstanceNext(k, base, o, OpenInstanceCloud, reply, now);
    if !reply.Done? {
      CloudFails(k, base, o, reply, now);
      FailsTold(before, o, pc, k, base, "BackendError", Message(reply), now);
    } else if o.status.instanceID == "" {
      var creating, name := WithPhase(o, Creating), Given(before.spec, "name");
      CreateAnswers(k, base, creating, now);
      if !Acceptable(name) {
        RefusedTells(before, creating, pc, k, base, now);
      }
    }
  }

  lemma CloudFails(k: Key, base: nat, o: ProviderInstance, reply: Reply, now: nat)
    requires !reply.Done?
    ensures FailsInstance(InstanceNext(k, base, o, OpenInstanceCloud, reply, now), k, base, o, "BackendError",
                          Message(reply), now)
  {
    hide SetStatusCondition, HaveCluster, BeginCreate;
  }

  lemma RefusedTells(before: ProviderInstance, o: ProviderInstance, pc: Pc, k: Key, base: nat, now: nat)
    requires o.spec == before.spec && o.status == before.status.(phase := Creating) && before.status.instanceID == ""
    requires !Acceptable(Given(before.spec, "name")) && pc == BeginCreate(k, base, o, now)
    ensures NextTells(before, pc)
  {
    hide SetStatusCondition, BeginCreate, EndsIn, InstanceFailed;
    CreateAnswers(k, base, o, now);
    var message := if Given(before.spec, "name") == "" then "parameter name is required"
                   else "{\"code\": 0, \"message\": \"creation failed\"}";
    FailsTold(before, o, pc, k, base, "BackendError", message, now);
  }

  lemma CreateScanTells(
    before: ProviderInstance, k: Key, base: nat, o: ProviderInstance, want: Cluster, h: Slice, i: nat, reply: Reply,
    now: nat)
    requires o.spec == before.spec && o.status == before.status.(phase := Creating) && before.status.instanceID == ""
    requires want.id != "" && Acceptable(Given(before.spec, "name"))
    ensures NextTells(before, InstanceNext(k, base, o, CreateScan(want, h, i), reply, now))
  {
    hide SetStatusCondition, HaveCluster, BeginCreate, EndsIn, InstanceFailed, InstanceRetried, HasInfo;
    var pc := InstanceNext(k, base, o, CreateScan(want, h, i), reply, now);
    if i < h.len && reply.Element? {
      CreateScanAnswers(k, base, o, want, h, i, reply.cluster, now);
      if reply.cluster.id == want.id {
        FailsTold(before, o, pc, k, base, "BackendError", "{\"code\": 6, \"message\": \"code = AlreadyExists\"}", now);
      }
    } else if i >= h.len {
      ScannedAll(k, base, o, want, h, i, reply, now);
    }
  }

  lemma ScannedAll(k: Key, base: nat, o: ProviderInstance, want: Cluster, h: Slice, i: nat, reply: Reply, now: nat)
    requires want.id != "" && i >= h.len
    ensures var pc := InstanceNext(k, base, o, CreateScan(want, h, i), reply, now);
            pc.InInstance? && pc.atInstance.ReadyStatus? && HasInfo(pc.instance.status)
  {
    hide SetStatusCondition, HaveCluster, BeginCreate, SaysFields, SaysRegions;
    HaveClusterSays(k, base, o, want, now);
  }

  lemma GetScanTells(
    before: ProviderInstance, k: Key, base: nat, o: ProviderInstance, h: Slice, i: nat, reply: Reply, now: nat)
    requires o.spec == before.spec && o.status == before.status.(phase := Pending) && o.status.instanceID != ""
    ensures NextTells(before, InstanceNext(k, base, o, GetScan(h, i), reply, now))
  {
    hide SetStatusCondition, BeginCreate, EndsIn, InstanceFailed, InstanceRetried, Acceptable, HaveCluster, SaysFields,
      SaysRegions;
    if i < h.len && reply.Element? {
      GetScanAnswers(k, base, o, h, i, reply.cluster, now);
    }
    if i >= h.len {
      GetScanFails(k, base, o, h, i, reply, now);
      FailsTold(before, o, InstanceNext(k, base, o, GetScan(h, i), reply, now), k, base, "BackendError",
                "could not find cluster", now);
    }
  }

  lemma GetScanFails(k: Key, base: nat, o: ProviderInstance, h: Slice, i: nat, reply: Reply, now: nat)
    requires i >= h.len
    ensures FailsInstance(InstanceNext(k, base, o, GetScan(h, i), reply, now), k, base, o, "BackendError",
                          "could not find cluster", now)
  {
    hide SetStatusCondition, HaveCluster, BeginCreate;
  }

  lemma ReadyTells(before: ProviderInstance, k: Key, base: nat, o: ProviderInstance, reply: Reply, now: nat)
    requires InstanceReady(before, o)
    ensures NextTells(before, InstanceNext(k, base, o, ReadyStatus, reply, now))
  {
    hide SetStatusCondition, HaveCluster, BeginCreate, Acceptable, InstanceFailed, InstanceReady, HasInfo;
  }

  lemma WriterStops(
    before: ProviderInstance, k: Key, base: nat, o: ProviderInstance, at: InstanceAt, reply: Reply, now: nat)
    requires at.CreateHeader? || at.GetHeader? || at.ErrorStatus? || at.ReadyRetryStatus?
    requires InstanceTells(before, o, at)
    ensures NextTells(before, InstanceNext(k, base, o, at, reply, now))
  {
    hide SetStatusCondition, HaveCluster, BeginCreate, Acceptable, InstanceFailed, InstanceRetried, HasInfo;
  }

  lemma InstanceNextTells(
    sh: Shared, k: Key, base: nat, o: ProviderInstance, at: InstanceAt, reply: Reply, now: nat)
    requires ThreadOK(sh, InInstance(k, base, o, at))
    requires InstanceTells(Hist(sh.instances, k)[base].obj, o, at)
    ensures NextTells(Hist(sh.instances, k)[base].obj, InstanceNext(k, base, o, at, reply, now))
  {
    hide InstanceNext, NextTells, SetStatusCondition, Made, List, Wanted, Acceptable, InstanceFailed, InstanceRetried,
      HasInfo;
    var before := Hist(sh.instances, k)[base].obj;
    match at
    case FindInventory => LookupTells(before, k, base, o, reply, now);
    case OpenInstanceCloud => OpenTells(before, k, base, o, reply, now);
    case CreateScan(want, h, i) => CreateScanTells(before, k, base, o, want, h, i, reply, now);
    case GetScan(h, i) => GetScanTells(before, k, base, o, h, i, reply, now);
    case ReadyStatus => ReadyTells(before, k, base, o, reply, now);
    case _ => WriterStops(before, k, base, o, at, reply, now);
  }

  const EMPTY_INVENTORY := ProviderInventory(InventorySpec(""), EMPTY_INVENTORY_STATUS)

  lemma InventoryNextTells(
    before: ProviderInventory, k: Key, base: nat, o: ProviderInventory, at: InventoryAt, reply: Reply, now: nat)
    requires InventoryTells(before, o, at)
    ensures var pc := InventoryNext(k, base, o, at, reply, now);
            pc.InInventory? ==> InventoryTells(before, pc.inventory, pc.atInventory)
  {
    hide SetStatusCondition, ServiceOf;
    match at
    case OpenInventoryCloud =>
      if !reply.Done? {
        assert Synced(WithSynced(o, ConditionFalse, "InputError", now), before, ConditionFalse, "InputError", now);
      }
    case DiscoverList =>
      if !reply.Done? {
        assert Synced(WithSynced(o, ConditionFalse, "BackendError", now), before, ConditionFalse, "BackendError", now);
      }
    case DiscoverScan(n, found) =>
      if |found| >= n {
        var listed := before.(status := before.status.(services := found));
        assert Synced(WithSynced(listed, ConditionTrue, "SyncOK", now), listed, ConditionTrue, "SyncOK", now);
      }
    case _ =>
  }

  lemma FailedConnectionTells(
    k: Key, base: nat, o: ProviderConnection, reason: string, message: string, now: nat)
    requires IsReason(reason)
    ensures var pc := FailConnection(k, base, o, reason, message, now);
            pc.InConnection? && pc.atConnection == BindStatus(Some(message))
                  && ConnectionFailed(o, pc.connection, message)
  {
    hide SetStatusCondition;
  }

  lemma HaveConfigMapTells(k: Key, base: nat, o: ProviderConnection, now: nat)
    ensures var pc := HaveConfigMap(k, base, o, now);
            pc.InConnection? && pc.atConnection == BindStatus(None) && ConnectionBound(k, o, pc.connection)
  {
    hide SetStatusCondition;
  }

  lemma ConnectionNextTells(
    k: Key, before: ProviderConnection, base: nat, o: ProviderConnection, at: ConnectionAt, reply: Reply, now: nat)
    requires ConnectionTells(k, before, o, at)
    ensures var pc := ConnectionNext(k, base, o, at, reply, now);
            pc.InConnection? ==> ConnectionTells(k, before, pc.connection, pc.atConnection)
  {
    hide FailConnection, HaveConfigMap, ConnectionFailed, ConnectionBound, ClusterInstance, Claimed;
    forall reason, message | IsReason(reason) {
      FailedConnectionTells(k, base, o, reason, message, now);
    }
    HaveConfigMapTells(k, base, o, now);
  }

  lemma NextIsTelling(sh: Shared, k: Key, pc: Pc, reply: Reply, now: nat)
    requires ThreadOK(sh, pc) && Telling(sh, k, pc) && Fits(sh, RequestOf(pc), reply)
    ensures Telling(sh, k, Next(pc, reply, now))
  {
    hide InstanceNext, InventoryNext, ConnectionNext, InstanceThreadOK, InventoryThreadOK, ConnectionThreadOK,
      InstanceTells, List, Made;
    match pc
    case InInstance(j, base, o, at) =>
      Q.NotDetails(sh, j, Hist(sh.instances, j)[base].obj.status, o, at);
      Q.SameBase(j, base, o, at, reply, now);
      if j == k {
        InstanceNextTells(sh, k, base, o, at, reply, now);
      }
    case InInventory(j, base, o, at) =>
      SameInventory(j, base, o, at, reply, now);
      if j == k {
        InventoryNextTells(Hist(sh.inventories, k)[base].obj, k, base, o, at, reply, now);
      }
    case InConnection(j, base, o, at) =>
      SameConnection(j, base, o, at, reply, now);
      if j == k {
        ConnectionNextTells(k, Hist(sh.connections, k)[base].obj, base, o, at, reply, now);
      }
    case InstanceStart(_) => StartTells(sh, k, pc, reply, now);
    case _ =>
  }

  lemma StartTells(sh: Shared, k: Key, pc: Pc, reply: Reply, now: nat)
    requires pc.InstanceStart?
    ensures Telling(sh, k, Next(pc, reply, now))
  {
  }

  lemma SameInventory(k: Key, base: nat, o: ProviderInventory, at: InventoryAt, reply: Reply, now: nat)
    ensures var pc := InventoryNext(k, base, o, at, reply, now);
            pc.InInventory? ==> pc.base == base && pc.key == k
  {
    hide SetStatusCondition, ServiceOf;
  }

  lemma SameConnection(k: Key, base: nat, o: ProviderConnection, at: ConnectionAt, reply: Reply, now: nat)
    ensures var pc := ConnectionNext(k, base, o, at, reply, now);
            pc.InConnection? ==> pc.base == base && pc.key == k
  {
    hide WithBinding, ClusterInstance, Claimed;
  }

  // -------------------------------------------------------------------------- writes

  lemma InstanceStored(h: History<ProviderInstance>, base: nat, o: ProviderInstance, env: Env)
    requires InstancesTold(h) && LiveAt(h, base) && o.spec == h[base].obj.spec && InstanceTold(h[base].obj, o)
    ensures InstancesTold(Commit(h, base, h[base].obj.(status := o.status), env).0)
  {
    hide InstanceTold;
    assert h[base].obj.(status := o.status) == o;
  }

  lemma InventoryStored(h: History<ProviderInventory>, base: nat, o: ProviderInventory, env: Env)
    requires InventoriesTold(h) && LiveAt(h, base) && o.spec == h[base].obj.spec && InventoryTold(h[base].obj, o)
    ensures InventoriesTold(Commit(h, base, h[base].obj.(status := o.status), env).0)
  {
    hide InventoryTold;
    assert h[base].obj.(status := o.status) == o;
  }

  lemma ConnectionStored(k: Key, h: History<ProviderConnection>, base: nat, o: ProviderConnection, env: Env)
    requires ConnectionsTold(k, h) && LiveAt(h, base) && o.(status := h[base].obj.status) == h[base].obj
    requires ConnectionTold(k, h[base].obj, o)
    ensures ConnectionsTold(k, Commit(h, base, h[base].obj.(status := o.status), env).0)
  {
    hide ConnectionTold;
    assert h[base].obj.(status := o.status) == o;
  }

  lemma WriterTells(sh: Shared, k: Key, pc: Pc)
    requires ThreadOK(sh, pc) && Telling(sh, k, pc) && pc.InInstance? && pc.key == k && Q.WritesStatus(pc.atInstance)
    ensures InstanceTold(Hist(sh.instances, k)[pc.base].obj, pc.instance)
  {
    hide InstanceFailed, InstanceRetried, Made, List, HasInfo;
  }

  lemma BinderTells(sh: Shared, k: Key, pc: Pc)
    requires ThreadOK(sh, pc) && Telling(sh, k, pc) && pc.InConnection? && pc.key == k && pc.atConnection.BindStatus?
    ensures ConnectionTold(k, Hist(sh.connections, k)[pc.base].obj, pc.connection)
  {
    hide ConnectionFailed, ConnectionBound, List;
  }

  lemma OtherCallsTell(sh: Shared, req: Request, env: Env)
    requires Enabled(sh, req)
    requires !req.UpdateInstanceStatus? && !req.UpdateInventoryStatus? && !req.UpdateConnectionStatus?
    ensures var after := Serve(sh, req, env).0;
            && after.instances == sh.instances && after.inventories == sh.inventories
            && after.connections == sh.connections
  {
    hide Put, ReadArtefact, ReadEntry, StoreStep, UpdateInstance, UpdateInventory, UpdateConnection;
  }

  lemma ServeTells(sh: Shared, pc: Pc, env: Env, k: Key)
    requires ThreadOK(sh, pc) && Telling(sh, k, pc) && AllTold(sh, k) && Enabled(sh, RequestOf(pc))
    ensures AllTold(Serve(sh, RequestOf(pc), env).0, k)
  {
    hide InstancesTold, InventoriesTold, ConnectionsTold, InstanceThreadOK, InventoryThreadOK, ConnectionThreadOK,
      Telling, Commit, Put, InstanceTold, InventoryTold, ConnectionTold, ReadArtefact, ReadEntry, StoreStep,
      SecretKey, ConfigMapKey;
    match RequestOf(pc)
    case UpdateInstanceStatus(j, base, status) =>
      assert pc.InInstance? && j == pc.key && base == pc.base && status == pc.instance.status
        && Q.WritesStatus(pc.atInstance);
      if j == k {
        WriterTells(sh, k, pc);
        InstanceStored(Hist(sh.instances, k), base, pc.instance, env);
      }
    case UpdateInventoryStatus(j, base, status) =>
      if j == k {
        SyncerTells(sh, k, pc);
        InventoryStored(Hist(sh.inventories, k), base, pc.inventory, env);
      }
    case UpdateConnectionStatus(j, base, status) =>
      if j == k {
        BinderTells(sh, k, pc);
        ConnectionStored(k, Hist(sh.connections, k), base, pc.connection, env);
      }
    case req => OtherCallsTell(sh, req, env);
  }

  lemma SyncerTells(sh: Shared, k: Key, pc: Pc)
    requires ThreadOK(sh, pc) && Telling(sh, k, pc) && pc.InInventory? && pc.key == k && pc.atInventory.SyncStatus?
    ensures InventoryTold(Hist(sh.inventories, k)[pc.base].obj, pc.inventory)
  {
    hide InventoryTold, List;
  }

  lemma UsersTellNothing(sh: Shared, u: UserAction, k: Key)
    requires AllTold(sh, k)
    ensures AllTold(UserStep(sh, u), k)
  {
    hide InstanceTold, InventoryTold, ConnectionTold, Collected;
  }

  lemma OthersTell(s: State, after: Shared, k: Key)
    requires Inv(s) && TellInv(s, k) && Grows(s.sh, after)
    ensures forall t :: t in s.threads ==> Telling(after, k, s.threads[t])
  {
    hide Telling, ThreadOK, Grows, SharedOK, AllTold;
    forall t | t in s.threads {
      TellingStable(s.sh, after, k, s.threads[t]);
    }
  }

  lemma CallTells(s: State, t: Tid, env: Env, k: Key)
    requires Inv(s) && TellInv(s, k)
    ensures TellInv(ThreadStep(s, t, env), k)
  {
    hide Serve, Next, RequestOf, Enabled, SharedOK, ThreadOK, Telling, AllTold, Grows, Fits;
    var pc := PcOf(s, t);
    if Enabled(s.sh, RequestOf(pc)) {
      var (after, reply) := Serve(s.sh, RequestOf(pc), env);
      assert ThreadOK(s.sh, pc) && Telling(s.sh, k, pc) by { IdleOK(s.sh); IdleTells(s.sh, k); }
      ServeGrows(s.sh, RequestOf(pc), env);
      ServeFits(s.sh, RequestOf(pc), env);
      ThreadStable(s.sh, after, pc);
      TellingStable(s.sh, after, k, pc);
      NextIsTelling(after, k, pc, reply, env.now);
      OthersTell(s, after, k);
      ServeTells(s.sh, pc, env, k);
    }
  }

  lemma IdleTells(sh: Shared, k: Key)
    ensures Telling(sh, k, Idle)
  {
  }

  lemma StepTells(s: State, a: Action, k: Key)
    requires Inv(s) && NoDelete(a) && TellInv(s, k)
    ensures TellInv(Step(s, a), k)
  {
    hide Inv, ThreadStep, UserStep, StoreStep, AllTold, Telling, Grows, NoDelete, Deletes;
    match a
    case Thread(t, env) =>
      hide TellInv;
      CallTells(s, t, env, k);
    case User(u) =>
      UserGrows(s.sh, u);
      OthersTell(s, UserStep(s.sh, u), k);
      UsersTellNothing(s.sh, u, k);
    case Spawn(_, start) =>
      if Starting(start) {
        SpawnTells(s.sh, k, start);
      }
    case Worker(w) =>
      StepGrows(s, a);
      OthersTell(s, Step(s, a).sh, k);
      SameTold(s.sh, Step(s, a).sh, k);
  }

  lemma SpawnTells(sh: Shared, k: Key, pc: Pc)
    requires Starting(pc)
    ensures Telling(sh, k, pc)
  {
  }

  lemma SameTold(a: Shared, b: Shared, k: Key)
    requires a.instances == b.instances && a.inventories == b.inventories && a.connections == b.connections
          && AllTold(a, k)
    ensures AllTold(b, k)
  {
    hide InstancesTold, InventoriesTold, ConnectionsTold;
  }

  lemma InitialTells(k: Key)
    ensures TellInv(INITIAL, k)
  {
  }

  lemma {:induction false} RunsTell(actions: seq<Action>, k: Key)
    requires NoDeletes(actions)
    ensures TellInv(Run(INITIAL, actions), k)
    decreases |actions|
  {
    hide Inv, Step, NoDelete, TellInv;
    if actions == [] {
      InitialTells(k);
    } else {
      var n := |actions| - 1;
      RunsTell(actions[..n], k);
      RunKeeps(actions[..n]);
      StepTells(Run(INITIAL, actions[..n]), actions[n], k);
    }
  }

  /**
   In every run, each status that differs from the one it follows is what one way out of a reconcile
   says of the version before: a failure with the reason that goes with its phase and its cause, or a
   success with what it promises, and everything else as it was.
   */
  lemma EveryStatusIsTold(actions: seq<Action>, k: Key)
    requires NoDeletes(actions)
    ensures AllTold(Run(INITIAL, actions).sh, k)
  {
    hide Run, NoDeletes, AllTold, Telling;
    RunsTell(actions, k);
  }
}
