/** The values that travel between the controllers, the API server and the cluster store. */
module Types {

  datatype Option<+T> = None | Some(value: T)

  datatype Result<+T> = Success(value: T) | Failure(error: string)

  /** A namespaced object name. */
  datatype Key = Key(namespace: string, name: string)

  datatype Region = Region(name: string, sqlDns: string)

  /** A cluster of the in-memory provider cloud; the two timestamps are kept as they print. */
  datatype Cluster = Cluster(
    id: string,
    name: string,
    version: string,
    plan: string,
    cloudProvider: string,
    state: string,
    creatorId: string,
    operationStatus: string,
    regions: seq<Region>,
    createdAt: string,
    updatedAt: string)

  /** One discovered cluster, as an inventory status lists it. */
  datatype DatabaseService = DatabaseService(serviceID: string, serviceName: string, serviceInfo: map<string, string>)

  datatype ConditionStatus = ConditionTrue | ConditionFalse

  datatype Condition = Condition(kind: string, status: ConditionStatus, reason: string, message: string,
        transition: nat)

  datatype Phase = PhaseUnset | Unknown | Pending | Creating | Ready

  datatype InstanceSpec = InstanceSpec(inventoryRef: Key, parameters: map<string, string>)
  datatype InstanceStatus = InstanceStatus(
    phase: Phase,
    instanceID: string,
    instanceInfo: map<string, string>,
    conditions: seq<Condition>)
  datatype ProviderInstance = ProviderInstance(spec: InstanceSpec, status: InstanceStatus)

  datatype InventorySpec = InventorySpec(credentialsRef: string)
  datatype InventoryStatus = InventoryStatus(services: seq<DatabaseService>, conditions: seq<Condition>)
  datatype ProviderInventory = ProviderInventory(spec: InventorySpec, status: InventoryStatus)

  datatype ConnectionSpec = ConnectionSpec(inventoryRef: Key, databaseServiceID: string)
  datatype ConnectionStatus = ConnectionStatus(
    credentialsRef: Option<string>,
    connectionInfoRef: Option<string>,
    conditions: seq<Condition>)
  /** The uid tells the lives of a connection apart: a name deleted and applied again gets a new one. */
  datatype ProviderConnection = ProviderConnection(uid: nat, spec: ConnectionSpec, status: ConnectionStatus)

  /** The controlling owner of a Secret or ConfigMap, by name within the namespace and by uid. */
  datatype Controller = NoController | ConnectionController(name: string, uid: nat) | OtherController(name: string)

  /** A Secret or a ConfigMap. */
  datatype Artefact = Artefact(controller: Controller, labels: map<string, string>, data: map<string, string>)

  /** What a Reconcile call hands back to the work queue. */
  datatype ReconcileResult = Ok | OkRequeue | Err(message: string) | RequeueErr(message: string)

  const EMPTY_INSTANCE_STATUS := InstanceStatus(PhaseUnset, "", map[], [])
  const EMPTY_INVENTORY_STATUS := InventoryStatus([], [])
  const EMPTY_CONNECTION_STATUS := ConnectionStatus(None, None, [])
  const EMPTY_ARTEFACT := Artefact(NoController, map[], map[])

  const INVENTORY_READY := "SpecSynced"
  const CONNECTION_READY := "ReadyForBinding"

  function Ids(clusters: seq<Cluster>): (ids: seq<string>)
    ensures |ids| == |clusters|
  {
    seq(|clusters|, i requires 0 <= i < |clusters| => clusters[i].id)
  }

  function ServiceIds(services: seq<DatabaseService>): (ids: seq<string>)
    ensures |ids| == |services|
  {
    seq(|services|, i requires 0 <= i < |services| => services[i].serviceID)
  }

  /** The position of the first occurrence of a name, or the length if there is none. */
  function IndexOf(names: seq<string>, name: string): (i: nat)
    ensures i <= |names|
    ensures forall j :: 0 <= j < i ==> names[j] != name
    ensures i < |names| ==> names[i] == name
  {
    if names == [] then 0
    else if names[0] == name then 0
    else 1 + IndexOf(names[1..], name)
  }

  predicate Distinct(names: seq<string>) {
    forall i, j :: 0 <= i < j < |names| ==> names[i] != names[j]
  }
}
