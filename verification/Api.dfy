/**
 Everything the reconcilers share: an API server that keeps every version of every object and
 accepts a write only against the latest one, and the cluster store beside it.
 */
module Api {
  import opened Types
  import opened ClusterStore

  /** One version of an object's life: a live object, or its deletion. */
  datatype Entry<T> = Live(obj: T) | Gone

  /** All versions stored under one key, oldest first; a version is its position. */
  type History<T> = seq<Entry<T>>

  function Hist<T>(m: map<Key, History<T>>, k: Key): History<T> {
    if k in m then m[k] else []
  }

  predicate LiveAt<T>(h: History<T>, v: nat) {
    v < |h| && h[v].Live?
  }

  predicate NotDeleted<T>(h: History<T>) {
    h != [] && h[|h| - 1].Live?
  }

  predicate IsNewest<T(==)>(h: History<T>, obj: T) {
    h != [] && h[|h| - 1] == Live(obj)
  }

  /** The object is the newest version, or a newer version overtook the one it was written over. */
  predicate StoredOrOvertaken<T(==)>(h: History<T>, base: nat, obj: T) {
    IsNewest(h, obj) || base != |h| - 1
  }

  /** A create that reached the addCluster channel, with the instance it was made for. */
  datatype Accepted = Accepted(cluster: Cluster, owner: Key)

  datatype Shared = Shared(
    store: Store,
    log: seq<Accepted>,           // auxiliary: the creates in send order
    instances: map<Key, History<ProviderInstance>>,
    inventories: map<Key, History<ProviderInventory>>,
    connections: map<Key, History<ProviderConnection>>,
    secrets: map<Key, History<Artefact>>,
    configMaps: map<Key, History<Artefact>>)

  datatype Request =
    | GetInstance(key: Key)
    | GetInventory(key: Key)
    | GetConnection(key: Key)
    | GetSecret(key: Key)
    | GetConfigMap(key: Key)
    | UpdateInstanceStatus(key: Key, base: nat, instance: InstanceStatus)
    | UpdateInventoryStatus(key: Key, base: nat, inventory: InventoryStatus)
    | UpdateConnectionStatus(key: Key, base: nat, connection: ConnectionStatus)
    | PutSecret(key: Key, over: Option<nat>, artefact: Artefact)      // create, or update over a version
    | PutConfigMap(key: Key, over: Option<nat>, artefact: Artefact)
    | OpenCloudService
    | ListClusters
    | ReadHeader
    | ReadLength
    | ReadSnapshot(h: Slice, i: nat)  // through a header copied earlier
    | ReadShared(i: nat)              // through the shared header as it is now
    | SendAdd(cluster: Cluster, owner: Key)
    | Nothing

  datatype Reply =
    | InstanceRead(version: nat, instance: ProviderInstance)
    | InventoryRead(version: nat, inventory: ProviderInventory)
    | ConnectionRead(version: nat, connection: ProviderConnection)
    | ArtefactRead(version: nat, artefact: Artefact)
    | NotFound(message: string)
    | Failed(message: string)
    | Conflict
    | Written(version: nat)
    | Header(h: Slice)
    | Length(n: nat)
    | Element(cluster: Cluster)
    | Done
    | OutOfRange

  /** A call may be refused, or a write may take effect and its reply be lost. */
  datatype Fault = NoFault | Rejected | ReplyLost

  /** What the environment decides about one call. */
  datatype Env = Env(version: nat, fault: Fault, message: string, now: nat)

  /** The part of a read that all kinds share: any version written so far may come back. */
  function ReadEntry<T>(h: History<T>, env: Env): Entry<T> {
    if LiveAt(h, env.version) then h[env.version] else Gone
  }

  /** Stores obj over version base; an unchanged object makes no new version. */
  function Commit<T(==)>(h: History<T>, base: nat, obj: T, env: Env): (History<T>, Reply) {
    if env.fault.Rejected? then (h, Failed(env.message))
    else if h == [] || h[|h| - 1].Gone? then (h, NotFound(env.message))
    else if base != |h| - 1 then (h, Conflict)
    else
      var after := if h[base].obj == obj then h else h + [Live(obj)];
      (after, if env.fault.ReplyLost? then Failed(env.message) else Written(|after| - 1))
  }

  function Create<T>(h: History<T>, obj: T, env: Env): (History<T>, Reply) {
    if env.fault.Rejected? || (h != [] && h[|h| - 1].Live?) then (h, Failed(env.message))
    else (h + [Live(obj)], if env.fault.ReplyLost? then Failed(env.message) else Written(|h|))
  }

  function Put<T(==)>(h: History<T>, over: Option<nat>, obj: T, env: Env): (History<T>, Reply) {
    match over
    case None => Create(h, obj, env)
    case Some(base) => Commit(h, base, obj, env)
  }

  function ReadArtefact(h: History<Artefact>, env: Env): Reply {
    if !env.fault.NoFault? then Failed(env.message)
    else match ReadEntry(h, env)
      case Live(o) => ArtefactRead(env.version, o)
      case Gone => NotFound(env.message)
  }

  /** A status update replaces the status only, whatever else the caller's copy says. */
  function UpdateInstance(sh: Shared, k: Key, base: nat, status: InstanceStatus, env: Env): (Shared, Reply) {
    var h := Hist(sh.instances, k);
    if LiveAt(h, base) then
      var (after, reply) := Commit(h, base, h[base].obj.(status := status), env);
      (sh.(instances := sh.instances[k := after]), reply)
    else (sh, Failed(env.message))
  }

  function UpdateInventory(sh: Shared, k: Key, base: nat, status: InventoryStatus, env: Env): (Shared, Reply) {
    var h := Hist(sh.inventories, k);
    if LiveAt(h, base) then
      var (after, reply) := Commit(h, base, h[base].obj.(status := status), env);
      (sh.(inventories := sh.inventories[k := after]), reply)
    else (sh, Failed(env.message))
  }

  function UpdateConnection(sh: Shared, k: Key, base: nat, status: ConnectionStatus, env: Env): (Shared, Reply) {
    var h := Hist(sh.connections, k);
    if LiveAt(h, base) then
      var (after, reply) := Commit(h, base, h[base].obj.(status := status), env);
      (sh.(connections := sh.connections[k := after]), reply)
    else (sh, Failed(env.message))
  }

  function StoreSecret(sh: Shared, k: Key, over: Option<nat>, artefact: Artefact, env: Env): (Shared, Reply) {
    var (after, reply) := Put(Hist(sh.secrets, k), over, artefact, env);
    (sh.(secrets := sh.secrets[k := after]), reply)
  }

  function StoreConfigMap(sh: Shared, k: Key, over: Option<nat>, artefact: Artefact, env: Env): (Shared, Reply) {
    var (after, reply) := Put(Hist(sh.configMaps, k), over, artefact, env);
    (sh.(configMaps := sh.configMaps[k := after]), reply)
  }

  function Accept(sh: Shared, c: Cluster, owner: Key): Shared {
    sh.(store := StoreStep(sh.store, AddSend(c)), log := sh.log + [Accepted(c, owner)])
  }

  /** A blocked send is the only request that has to wait. */
  predicate Enabled(sh: Shared, req: Request) {
    req.SendAdd? ==> |sh.store.addBuf| < CAPACITY
  }

  function Serve(sh: Shared, req: Request, env: Env): (Shared, Reply)
    requires Enabled(sh, req)
  {
    match req
    case GetInstance(k) =>
      (sh, if !env.fault.NoFault? then Failed(env.message)
      else match ReadEntry(Hist(sh.instances, k), env)
        case Live(o) => InstanceRead(env.version, o)
        case Gone => NotFound(env.message))
    case GetInventory(k) =>
      (sh, if !env.fault.NoFault? then Failed(env.message)
      else match ReadEntry(Hist(sh.inventories, k), env)
        case Live(o) => InventoryRead(env.version, o)
        case Gone => NotFound(env.message))
    case GetConnection(k) =>
      (sh, if !env.fault.NoFault? then Failed(env.message)
      else match ReadEntry(Hist(sh.connections, k), env)
        case Live(o) => ConnectionRead(env.version, o)
        case Gone => NotFound(env.message))
    case GetSecret(k) => (sh, ReadArtefact(Hist(sh.secrets, k), env))
    case GetConfigMap(k) => (sh, ReadArtefact(Hist(sh.configMaps, k), env))
    case UpdateInstanceStatus(k, base, status) => UpdateInstance(sh, k, base, status, env)
    case UpdateInventoryStatus(k, base, status) => UpdateInventory(sh, k, base, status, env)
    case UpdateConnectionStatus(k, base, status) => UpdateConnection(sh, k, base, status, env)
    case PutSecret(k, over, artefact) => StoreSecret(sh, k, over, artefact, env)
    case PutConfigMap(k, over, artefact) => StoreConfigMap(sh, k, over, artefact, env)
    case OpenCloudService => (sh, if env.fault.NoFault? then Done else Failed(env.message))
    case ListClusters => (sh, if env.fault.NoFault? then Done else Failed(env.message))
    case ReadHeader => (sh, Header(sh.store.hdr))
    case ReadLength => (sh, Length(sh.store.hdr.len))
    case ReadSnapshot(h, i) =>
      (sh, if h.arr < |sh.store.mem| && i < |sh.store.mem[h.arr]| then Element(sh.store.mem[h.arr][i]) else OutOfRange)
    case ReadShared(i) => (sh, if i < sh.store.hdr.len then Element(List(sh.store)[i]) else OutOfRange)
    case SendAdd(c, owner) => (Accept(sh, c, owner), Done)
    case Nothing => (sh, Done)
  }
}
