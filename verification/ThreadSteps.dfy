/** Every call a reconcile makes keeps the invariants, its own included. */
module ThreadSteps {
  import opened Types
  import opened Conditions
  import opened ClusterStore
  import InstanceInfo
  import opened Api
  import opened Reconcilers
  import opened Operator
  import opened Invariants
  import opened SharedSteps

  // ------------------------------------------------------- what is asked for

  /** The writes the server can be trusted with. */
  ghost predicate RequestOK(sh: Shared, req: Request) {
    match req
    case UpdateInstanceStatus(k, base, status) =>
      && LiveAt(Hist(sh.instances, k), base)
      && WriteOnce(Hist(sh.instances, k)[base].obj.status, status)
      && PhaseOK(status)
      && (status.instanceID != "" ==> Made(sh.log, k, status.instanceID))
    case UpdateInventoryStatus(k, base, status) =>
      && LiveAt(Hist(sh.inventories, k), base)
      && ServiceIds(Hist(sh.inventories, k)[base].obj.status.services) <= ServiceIds(status.services)
      && ServiceIds(status.services) <= Ids(List(sh.store))
    case UpdateConnectionStatus(k, base, status) =>
      && LiveAt(Hist(sh.connections, k), base)
      && OneOfEach(status.conditions)
      && (IsTrue(status.conditions, CONNECTION_READY) ==>
            Hist(sh.connections, k)[base].obj.spec.databaseServiceID in Ids(List(sh.store)))
    case _ => true
  }

  lemma RequestIsOK(sh: Shared, pc: Pc)
    requires ThreadOK(sh, pc)
    ensures RequestOK(sh, RequestOf(pc))
  {
    hide List, Made, OneOfEach, IsTrue;
  }

  lemma ServeKeeps(sh: Shared, req: Request, env: Env)
    requires SharedOK(sh) && RequestOK(sh, req) && Enabled(sh, req)
    ensures SharedOK(Serve(sh, req, env).0)
  {
    hide Made, List, OneOfEach, IsTrue, InstancesOK, InventoriesOK, ConnectionsOK, StoreLogged, PhaseOK, WriteOnce;
    hide UpdateInstance, UpdateInventory, UpdateConnection, StoreSecret, StoreConfigMap, Accept, ReadArtefact;
    match req
    case UpdateInstanceStatus(k, base, status) => InstanceWriteKeeps(sh, k, base, status, env);
    case UpdateInventoryStatus(k, base, status) => InventoryWriteKeeps(sh, k, base, status, env);
    case UpdateConnectionStatus(k, base, status) => ConnectionWriteKeeps(sh, k, base, status, env);
    case PutSecret(k, over, a) => ArtefactsAreApart(sh, k, over, a, env);
    case PutConfigMap(k, over, a) => ArtefactsAreApart(sh, k, over, a, env);
    case SendAdd(c, owner) => AcceptKeeps(sh, c, owner);
    case _ =>
  }

  lemma ArtefactsAreApart(sh: Shared, k: Key, over: Option<nat>, a: Artefact, env: Env)
    requires SharedOK(sh)
    ensures SharedOK(StoreSecret(sh, k, over, a, env).0)
    ensures SharedOK(StoreConfigMap(sh, k, over, a, env).0)
  {
  }

  // ----------------------------------------------------------- what comes back

  /** A write that is answered is the newest version; a conflict means that the base was not. */
  ghost predicate WriteFits<T>(h: History<T>, base: nat, obj: T, reply: Reply) {
    && (reply.Written? ==> base < |h| <= base + 2 && reply.version == |h| - 1 && h[|h| - 1] == Live(obj))
    && (reply.Conflict? ==> base != |h| - 1)
  }

  /** What a reply tells about the state it was given in. */
  ghost predicate Fits(sh: Shared, req: Request, reply: Reply) {
    match req
    case GetInstance(k) =>
      reply.InstanceRead? ==>
        LiveAt(Hist(sh.instances, k), reply.version) && Hist(sh.instances, k)[reply.version].obj == reply.instance
    case GetInventory(k) =>
      reply.InventoryRead? ==>
        LiveAt(Hist(sh.inventories, k), reply.version) && Hist(sh.inventories, k)[reply.version].obj == reply.inventory
    case GetConnection(k) =>
      reply.ConnectionRead? ==>
        LiveAt(Hist(sh.connections, k), reply.version) && Hist(sh.connections, k)[reply.version].obj == reply.connection
    case GetSecret(k) => ArtefactFits(Hist(sh.secrets, k), reply)
    case GetConfigMap(k) => ArtefactFits(Hist(sh.configMaps, k), reply)
    case ReadHeader => reply == Header(sh.store.hdr)
    case ReadLength => reply == Length(|List(sh.store)|)
    case ReadSnapshot(h, i) =>
      SeesIds(sh.store, h) && i < h.len ==> reply.Element? && reply.cluster.id == List(sh.store)[i].id
    case ReadShared(i) => i < |List(sh.store)| ==> reply == Element(List(sh.store)[i])
    case SendAdd(c, owner) => Made(sh.log, owner, c.id)
    case UpdateInstanceStatus(k, base, status) =>
      var h := Hist(sh.instances, k);
      if LiveAt(h, base) then WriteFits(h, base, h[base].obj.(status := status), reply) else reply.Failed?
    case UpdateInventoryStatus(k, base, status) =>
      var h := Hist(sh.inventories, k);
      if LiveAt(h, base) then WriteFits(h, base, h[base].obj.(status := status), reply) else reply.Failed?
    case UpdateConnectionStatus(k, base, status) =>
      var h := Hist(sh.connections, k);
      if LiveAt(h, base) then WriteFits(h, base, h[base].obj.(status := status), reply) else reply.Failed?
    case PutSecret(k, _, artefact) => PutFits(Hist(sh.secrets, k), artefact, reply)
    case PutConfigMap(k, _, artefact) => PutFits(Hist(sh.configMaps, k), artefact, reply)
    case _ => true
  }

  ghost predicate ArtefactFits(h: History<Artefact>, reply: Reply) {
    reply.ArtefactRead? ==> LiveAt(h, reply.version) && h[reply.version].obj == reply.artefact
  }

  ghost predicate PutFits(h: History<Artefact>, artefact: Artefact, reply: Reply) {
    reply.Written? ==> LiveAt(h, reply.version) && reply.version == |h| - 1 && h[reply.version].obj == artefact
  }

  lemma CommitFits<T>(h: History<T>, base: nat, obj: T, env: Env)
    requires LiveAt(h, base)
    ensures var (after, reply) := Commit(h, base, obj, env);
            WriteFits(after, base, obj, reply) && LiveAt(after, base) && after[base] == h[base]
  {
  }

  lemma PutIsFit(h: History<Artefact>, over: Option<nat>, artefact: Artefact, env: Env)
    ensures PutFits(Put(h, over, artefact, env).0, artefact, Put(h, over, artefact, env).1)
  {
  }

  lemma ServeFits(sh: Shared, req: Request, env: Env)
    requires Enabled(sh, req)
    ensures Fits(Serve(sh, req, env).0, req, Serve(sh, req, env).1)
  {
    hide Commit, Put, WriteFits, PutFits;
    match req
    case SendAdd(c, owner) => assert Accept(sh, c, owner).log[|sh.log|] == Accepted(c, owner);
    case UpdateInstanceStatus(k, base, status) =>
      if LiveAt(Hist(sh.instances, k), base) {
        CommitFits(Hist(sh.instances, k), base, Hist(sh.instances, k)[base].obj.(status := status), env);
      }
    case UpdateInventoryStatus(k, base, status) =>
      if LiveAt(Hist(sh.inventories, k), base) {
        CommitFits(Hist(sh.inventories, k), base, Hist(sh.inventories, k)[base].obj.(status := status), env);
      }
    case UpdateConnectionStatus(k, base, status) =>
      if LiveAt(Hist(sh.connections, k), base) {
        CommitFits(Hist(sh.connections, k), base, Hist(sh.connections, k)[base].obj.(status := status), env);
      }
    case PutSecret(k, over, artefact) => PutIsFit(Hist(sh.secrets, k), over, artefact, env);
    case PutConfigMap(k, over, artefact) => PutIsFit(Hist(sh.configMaps, k), over, artefact, env);
    case _ =>
  }

  // ------------------------------------------------------------ what is next

  lemma StartNext(sh: Shared, pc: Pc, reply: Reply, now: nat)
    requires SharedOK(sh) && Starting(pc) && Fits(sh, RequestOf(pc), reply)
    ensures ThreadOK(sh, Next(pc, reply, now))
  {
    hide InstanceNext, InventoryNext, ConnectionNext, Made, OneOfEach, List;
    match pc
    case InstanceStart(k) =>
      if reply.InstanceRead? {
        var h := Hist(sh.instances, k);
        assert InstanceHistoryOK(sh.log, k, h);
        assert InstanceVersionOK(sh.log, k, Previous(h, reply.version), h[reply.version].obj);
      }
    case InventoryStart(k) =>
    case ConnectionStart(k) =>
      if reply.ConnectionRead? {
        var h := Hist(sh.connections, k);
        assert ConnectionHistoryOK(Ids(List(sh.store)), h);
        assert ConnectionVersionOK(Ids(List(sh.store)), Previous(h, reply.version), h[reply.version].obj);
      }
  }

  lemma InstanceNextOK(sh: Shared, k: Key, base: nat, o: ProviderInstance, at: InstanceAt, reply: Reply, now: nat)
    requires ThreadOK(sh, InInstance(k, base, o, at))
    requires Fits(sh, RequestOf(InInstance(k, base, o, at)), reply)
    ensures ThreadOK(sh, InstanceNext(k, base, o, at, reply, now))
  {
    hide SetStatusCondition, InstanceInfo.Info, HasSuffix, Made, List;
  }

  lemma InventoryNextOK(sh: Shared, k: Key, base: nat, o: ProviderInventory, at: InventoryAt, reply: Reply, now: nat)
    requires SharedOK(sh)
    requires ThreadOK(sh, InInventory(k, base, o, at))
    requires Fits(sh, RequestOf(InInventory(k, base, o, at)), reply)
    ensures ThreadOK(sh, InventoryNext(k, base, o, at, reply, now))
  {
    hide SharedOK, SetStatusCondition, InstanceInfo.Info, WriteFits, PutFits, ArtefactFits, SeesIds;
    StoredIsListed(sh, k, base);
    match at
    case DiscoverScan(n, found) =>
      if |found| < n && reply.Element? {
        FoundIsAppended(sh, found, reply.cluster);
      }
    case _ =>
  }

  lemma StoredIsListed(sh: Shared, k: Key, v: nat)
    requires SharedOK(sh)
    ensures LiveAt(Hist(sh.inventories, k), v) ==>
              ServiceIds(Hist(sh.inventories, k)[v].obj.status.services) <= Ids(List(sh.store))
  {
    hide StoreLogged, InstancesOK, ConnectionsOK, List;
    var h := Hist(sh.inventories, k);
    assert InventoryHistoryOK(Ids(List(sh.store)), h);
    assert LiveAt(h, v) ==> InventoryVersionOK(Ids(List(sh.store)), Previous(h, v), h[v].obj);
  }

  lemma FoundIsAppended(sh: Shared, found: seq<DatabaseService>, c: Cluster)
    requires ServiceIds(found) <= Ids(List(sh.store))
    ensures |found| < |List(sh.store)| && c == List(sh.store)[|found|] ==>
              ServiceIds(found + [ServiceOf(c)]) <= Ids(List(sh.store))
  {
    hide InstanceInfo.Info;
    assert ServiceIds(found + [ServiceOf(c)]) == ServiceIds(found) + [c.id];
  }

  /** A service found in an inventory version is a cluster of the list. */
  lemma FoundIsListed(sh: Shared, k: Key, v: nat, id: string)
    requires SharedOK(sh) && LiveAt(Hist(sh.inventories, k), v)
    ensures ClusterInstance(Hist(sh.inventories, k)[v].obj, id).FoundService? ==> id in Ids(List(sh.store))
  {
    var ids, services := Ids(List(sh.store)), Hist(sh.inventories, k)[v].obj.status.services;
    StoredIsListed(sh, k, v);
    hide SharedOK;
    var i := FirstService(services, id);
    assert i < |services| ==> ids[i] == ServiceIds(services)[i] == id;
  }

  lemma FailConnectionOK(
    sh: Shared, k: Key, base: nat, o: ProviderConnection, at: ConnectionAt, reason: string, message: string, now: nat)
    requires ThreadOK(sh, InConnection(k, base, o, at))
    ensures ThreadOK(sh, FailConnection(k, base, o, reason, message, now))
  {
    hide List, SetStatusCondition, OneOfEach, IsTrue;
    SetKeepsOneOfEach(o.status.conditions, CONNECTION_READY, ConditionFalse, reason, message, now);
    SetDecides(o.status.conditions, CONNECTION_READY, ConditionFalse, reason, message, now, CONNECTION_READY);
  }

  lemma HaveConfigMapOK(sh: Shared, k: Key, base: nat, o: ProviderConnection, at: ConnectionAt, now: nat)
    requires ThreadOK(sh, InConnection(k, base, o, at)) && !at.ServiceInventory? && !at.BindStatus?
    ensures ThreadOK(sh, HaveConfigMap(k, base, o, now))
  {
    hide List, SetStatusCondition, OneOfEach, IsTrue;
    SetKeepsOneOfEach(o.status.conditions, CONNECTION_READY, ConditionTrue, READY, SUCCESS_CONNECTION, now);
  }

  lemma ServiceNextOK(sh: Shared, k: Key, base: nat, o: ProviderConnection, reply: Reply, now: nat)
    requires SharedOK(sh)
    requires ThreadOK(sh, InConnection(k, base, o, ServiceInventory))
    requires Fits(sh, GetInventory(o.spec.inventoryRef), reply)
    ensures ThreadOK(sh, ConnectionNext(k, base, o, ServiceInventory, reply, now))
  {
    hide List, OneOfEach, SharedOK, FailConnection, ClusterInstance;
    forall reason, message {
      FailConnectionOK(sh, k, base, o, ServiceInventory, reason, message, now);
    }
    if reply.InventoryRead? {
      FoundIsListed(sh, o.spec.inventoryRef, reply.version, o.spec.databaseServiceID);
    }
  }

  lemma ArtefactNextOK(
    sh: Shared, k: Key, base: nat, o: ProviderConnection, at: ConnectionAt, reply: Reply, now: nat)
    requires ThreadOK(sh, InConnection(k, base, o, at)) && !at.ServiceInventory? && !at.BindStatus?
    ensures ThreadOK(sh, ConnectionNext(k, base, o, at, reply, now))
  {
    hide List, OneOfEach, FailConnection, HaveConfigMap, Claimed, SecretKey, ConfigMapKey;
    forall reason, message {
      FailConnectionOK(sh, k, base, o, at, reason, message, now);
    }
    HaveConfigMapOK(sh, k, base, o, at, now);
  }

  lemma ConnectionNextOK(sh: Shared, k: Key, base: nat, o: ProviderConnection, at: ConnectionAt, reply: Reply, now: nat)
    requires SharedOK(sh)
    requires ThreadOK(sh, InConnection(k, base, o, at))
    requires Fits(sh, RequestOf(InConnection(k, base, o, at)), reply)
    ensures ThreadOK(sh, ConnectionNext(k, base, o, at, reply, now))
  {
    if at.ServiceInventory? {
      hide SharedOK, ConnectionNext;
      ServiceNextOK(sh, k, base, o, reply, now);
    } else if at.BindStatus? {
      hide SharedOK;
    } else {
      hide SharedOK, ConnectionNext, Fits;
      ArtefactNextOK(sh, k, base, o, at, reply, now);
    }
  }
}
