/** ProviderConnectionReconciler, statement by statement. */
module ConnectionController {
  import opened Types
  import opened Conditions
  import opened Api
  import opened Reconcilers
  import opened Answers
  import opened Operator
  import opened Growth
  import opened ThreadSteps
  import opened Running

  class ConnectionCopy {
    const key: Key
    const base: nat
    const uid: nat
    const spec: ConnectionSpec
    var credentialsRef: Option<string>
    var connectionInfoRef: Option<string>
    var conditions: seq<Condition>

    function Value(): ProviderConnection
      reads this
    {
      ProviderConnection(uid, spec, ConnectionStatus(credentialsRef, connectionInfoRef, conditions))
    }

    constructor (key: Key, version: nat, o: ProviderConnection)
      ensures this.key == key && base == version && Value() == o
    {
      this.key, base, uid, spec := key, version, o.uid, o.spec;
      credentialsRef, connectionInfoRef := o.status.credentialsRef, o.status.connectionInfoRef;
      conditions := o.status.conditions;
    }
  }

  /** getClusterInstance: the inventory must be synced, and list the service. */
  method GetClusterInstance(inventory: ProviderInventory, instanceID: string) returns (found: ServiceSearch)
    ensures found == ClusterInstance(inventory, instanceID)
    ensures SearchSays(inventory, instanceID, found)
  {
    ClusterInstanceSays(inventory, instanceID);
    hide SearchSays;
    var conditions, services := inventory.status.conditions, inventory.status.services;
    var synced := false;
    var i := 0;
    while i < |conditions| && !synced
      invariant i <= |conditions|
      invariant synced <==>
                exists j :: 0 <= j < i && conditions[j].kind == INVENTORY_READY && conditions[j].status.ConditionTrue?
    {
      if conditions[i].kind == INVENTORY_READY && conditions[i].status.ConditionTrue? {
        synced := true;
      }
      i := i + 1;
    }
    if !synced {
      return NoService(NOT_SYNCED);
    }
    i := 0;
    while i < |services|
      invariant i <= |services|
      invariant forall j :: 0 <= j < i ==> services[j].serviceID != instanceID
    {
      if services[i].serviceID == instanceID {
        assert FirstService(services, instanceID) == i;
        return FoundService(services[i]);
      }
      i := i + 1;
    }
    return NoService("instance with id:" + instanceID + " not found in ProviderInventory");
  }

  ghost predicate IsStored(h: History<Artefact>, a: Artefact) {
    exists v: nat :: LiveAt(h, v) && h[v].obj == a
  }

  /** Some version of the Secret is what this life of the connection wants. */
  ghost predicate CredentialsStored(sh: Shared, k: Key, uid: nat) {
    var h := Hist(sh.secrets, SecretKey(k));
    exists v: nat :: LiveAt(h, v) && IsCredentials(h[v].obj, k, uid)
  }

  ghost predicate ConnectionInfoStored(sh: Shared, k: Key, uid: nat) {
    var h := Hist(sh.configMaps, ConfigMapKey(k));
    exists v: nat :: LiveAt(h, v) && IsConnectionInfo(h[v].obj, k, uid)
  }

  lemma StoredSays(sh: Shared, k: Key, uid: nat, existing: Artefact)
    ensures var a := Claimed(k, uid, existing, SecretData());
            a.Some? && IsStored(Hist(sh.secrets, SecretKey(k)), a.value) ==> CredentialsStored(sh, k, uid)
    ensures var a := Claimed(k, uid, existing, ConfigMapData());
            a.Some? && IsStored(Hist(sh.configMaps, ConfigMapKey(k)), a.value) ==> ConnectionInfoStored(sh, k, uid)
  {
    hide Claimed, Claimable, SecretKey, ConfigMapKey, IsCredentials, IsConnectionInfo;
    ClaimedSays(k, uid, existing);
  }

  lemma MissingIsClaimed(k: Key, uid: nat)
    ensures Claimed(k, uid, EMPTY_ARTEFACT, SecretData()).Some?
    ensures Claimed(k, uid, EMPTY_ARTEFACT, ConfigMapData()).Some?
  {
  }

  lemma ReadSays(sh: Shared, key: Key, reply: Reply)
    ensures Fits(sh, GetSecret(key), reply) && reply.ArtefactRead? ==> IsStored(Hist(sh.secrets, key), reply.artefact)
    ensures Fits(sh, GetConfigMap(key), reply) && reply.ArtefactRead? ==>
          IsStored(Hist(sh.configMaps, key), reply.artefact)
  {
  }

  lemma BindingIsTrue(o: ProviderConnection, now: nat)
    ensures IsTrue(WithBinding(o, ConditionTrue, READY, SUCCESS_CONNECTION, now).status.conditions, CONNECTION_READY)
    ensures var bound := WithBinding(o, ConditionTrue, READY, SUCCESS_CONNECTION, now).status;
            bound.credentialsRef == o.status.credentialsRef && bound.connectionInfoRef == o.status.connectionInfoRef
  {
    var conditions := WithBinding(o, ConditionTrue, READY, SUCCESS_CONNECTION, now).status.conditions;
    assert conditions[FirstOfKind(o.status.conditions, CONNECTION_READY)].kind == CONNECTION_READY;
  }

  lemma PutSays(sh: Shared, key: Key, over: Option<nat>, a: Artefact, reply: Reply)
    ensures Fits(sh, PutSecret(key, over, a), reply) && reply.Written? ==> IsStored(Hist(sh.secrets, key), a)
    ensures Fits(sh, PutConfigMap(key, over, a), reply) && reply.Written? ==> IsStored(Hist(sh.configMaps, key), a)
  {
  }

  class ProviderConnectionReconciler {
    const world: World
    const t: Tid

    constructor (world: World, t: Tid)
      ensures this.world == world && this.t == t
    {
      this.world, this.t := world, t;
    }

    function At(): Pc
      reads this, world
    {
      PcOf(world.st, t)
    }

    /** Sets the condition and writes the status; a conflict is not an error. */
    method UpdateStatus(copy: ConnectionCopy, status: ConditionStatus, reason: string, message: string, now: nat)
      returns (error: Option<string>, reply: Reply, later: nat)
      requires world.Valid()
      requires At().InConnection? && At().key == copy.key && At().base == copy.base
      requires At().connection == WithBinding(copy.Value(), status, reason, message, now)
      requires At().atConnection.BindStatus?
      modifies world, copy`conditions
      ensures world.Valid() && world.Continues(old(world.trace), t)
      ensures At() == Next(old(At()), reply, later)
      ensures copy.Value() == WithBinding(old(copy.Value()), status, reason, message, now)
      ensures error == if reply.Written? || reply.Conflict? then None else Some(Message(reply))
      ensures reply.Written? ==> IsNewest(Hist(world.st.sh.connections, copy.key), copy.Value())
      ensures reply.Conflict? ==> copy.base != |Hist(world.st.sh.connections, copy.key)| - 1
    {
      hide Run, NoDeletes, Next, Grows, SetStatusCondition, Fits, IsNewest;
      copy.conditions := SetStatusCondition(copy.conditions, CONNECTION_READY, status, reason, message, now);
      Knows(world.st, world.trace, t);
      ghost var before, pc := world.st.sh, At();
      reply, later := world.Call(t, UpdateConnectionStatus(copy.key, copy.base, copy.Value().status));
      WriteSays(before, world.st.sh, pc, reply);
      error := if reply.Written? || reply.Conflict? then None else Some(Message(reply));
    }

    /** The error exits: write a False condition, then report the error, or the failure to write it. */
    method Fail(copy: ConnectionCopy, reason: string, message: string, now: nat) returns (result: ReconcileResult)
      requires world.Valid()
      requires At() == FailConnection(copy.key, copy.base, copy.Value(), reason, message, now)
      modifies world, copy
      ensures world.Valid() && world.Continues(old(world.trace), t)
      ensures At() == Returned(result) && (result == Err(message) || result.RequeueErr?)
      ensures copy.Value() == WithBinding(old(copy.Value()), ConditionFalse, reason, message, now)
      ensures result.Err? ==>
                StoredOrOvertaken(Hist(world.st.sh.connections, copy.key), copy.base, copy.Value())
    {
      hide Run, NoDeletes, WithBinding, Next, IsNewest;
      ghost var o := WithBinding(copy.Value(), ConditionFalse, reason, message, now);
      var statusErr, reply, later := UpdateStatus(copy, ConditionFalse, reason, message, now);
      BindReplied(copy.key, copy.base, o, Some(message), reply, later);
      if statusErr.Some? {
        return RequeueErr(statusErr.value);
      }
      return Err(message);
    }

    /** createOrUpdateSecret: look it up, then create it, update it or leave it. */
    method CreateOrUpdateSecret(copy: ConnectionCopy, ghost service: DatabaseService)
      returns (outcome: Result<string>, now: nat)
      requires world.Valid()
      requires At() == InConnection(copy.key, copy.base, copy.Value(), SecretGet(service))
      modifies world
      ensures world.Valid() && world.Continues(old(world.trace), t)
      ensures outcome.Success? ==>
                outcome.value == SecretKey(copy.key).name
                && At() == InConnection(copy.key, copy.base, copy.Value(), ConfigMapGet(service))
      ensures outcome.Success? ==> CredentialsStored(world.st.sh, copy.key, copy.uid)
      ensures outcome.Failure? ==>
                At() == FailConnection(copy.key, copy.base, copy.Value(), BACKEND_ERROR, outcome.error, now)
    {
      hide Run, NoDeletes, Next, RequestOf, Fits, Grows, FailConnection, Labels, SecretData;
      hide IsStored, CredentialsStored, Claimed;
      ghost var k, base, o := copy.key, copy.base, copy.Value();
      var secretKey := SecretKey(copy.key);
      SecretAsks(k, base, o, service, None, EMPTY_ARTEFACT);
      var reply, clock := world.Call(t, GetSecret(secretKey));
      ReadSays(world.st.sh, secretKey, reply);
      SecretGetReplied(k, base, o, service, reply, clock);
      MissingIsClaimed(copy.key, copy.uid);
      var existing, over := EMPTY_ARTEFACT, None;
      if reply.ArtefactRead? {
        existing, over := reply.artefact, Some(reply.version);
      } else if !reply.NotFound? {
        return Failure(Message(reply)), clock;
      }
      var wanted := Claimed(copy.key, copy.uid, existing, SecretData());
      if wanted.None? {
        return Failure(ALREADY_OWNED), clock;
      }
      if over.None? || wanted.value != existing {
        SecretAsks(k, base, o, service, over, wanted.value);
        reply, clock := world.Call(t, PutSecret(secretKey, over, wanted.value));
        PutSays(world.st.sh, secretKey, over, wanted.value, reply);
        SecretPutReplied(k, base, o, service, over, wanted.value, reply, clock);
        if !reply.Written? {
          return Failure(Message(reply)), clock;
        }
      }
      StoredSays(world.st.sh, copy.key, copy.uid, existing);
      return Success(secretKey.name), clock;
    }

    /** createOrUpdateConfigMap, likewise. */
    method CreateOrUpdateConfigMap(copy: ConnectionCopy, ghost service: DatabaseService)
      returns (outcome: Result<string>, now: nat)
      requires world.Valid()
      requires At() == InConnection(copy.key, copy.base, copy.Value(), ConfigMapGet(service))
      modifies world
      ensures world.Valid() && world.Continues(old(world.trace), t)
      ensures outcome.Success? ==>
                outcome.value == ConfigMapKey(copy.key).name
                && At() == HaveConfigMap(copy.key, copy.base, copy.Value(), now)
      ensures outcome.Success? ==> ConnectionInfoStored(world.st.sh, copy.key, copy.uid)
      ensures outcome.Failure? ==>
                At() == FailConnection(copy.key, copy.base, copy.Value(), BACKEND_ERROR, outcome.error, now)
    {
      hide Run, NoDeletes, Next, RequestOf, Fits, Grows, FailConnection, HaveConfigMap, Labels, ConfigMapData;
      hide IsStored, ConnectionInfoStored, Claimed;
      ghost var k, base, o := copy.key, copy.base, copy.Value();
      var cmKey := ConfigMapKey(copy.key);
      ConfigMapAsks(k, base, o, service, None, EMPTY_ARTEFACT);
      var reply, clock := world.Call(t, GetConfigMap(cmKey));
      ReadSays(world.st.sh, cmKey, reply);
      ConfigMapGetReplied(k, base, o, service, reply, clock);
      MissingIsClaimed(copy.key, copy.uid);
      var existing, over := EMPTY_ARTEFACT, None;
      if reply.ArtefactRead? {
        existing, over := reply.artefact, Some(reply.version);
      } else if !reply.NotFound? {
        return Failure(Message(reply)), clock;
      }
      var wanted := Claimed(copy.key, copy.uid, existing, ConfigMapData());
      if wanted.None? {
        return Failure(ALREADY_OWNED), clock;
      }
      if over.None? || wanted.value != existing {
        ConfigMapAsks(k, base, o, service, over, wanted.value);
        reply, clock := world.Call(t, PutConfigMap(cmKey, over, wanted.value));
        PutSays(world.st.sh, cmKey, over, wanted.value, reply);
        ConfigMapPutReplied(k, base, o, over, wanted.value, reply, clock);
        if !reply.Written? {
          return Failure(Message(reply)), clock;
        }
      }
      StoredSays(world.st.sh, copy.key, copy.uid, existing);
      return Success(cmKey.name), clock;
    }

    /** The True condition, with the references to both artefacts. */
    method WriteBound(copy: ConnectionCopy, userSecret: string, dbConfigMap: string, later: nat)
      returns (result: ReconcileResult)
      requires world.Valid()
      requires userSecret == SecretKey(copy.key).name && dbConfigMap == ConfigMapKey(copy.key).name
      requires At() == HaveConfigMap(copy.key, copy.base, copy.Value(), later)
      modifies world, copy
      ensures world.Valid() && world.Continues(old(world.trace), t)
      ensures At() == Returned(result) && (result.Ok? || result.RequeueErr?)
      ensures copy.credentialsRef == Some(userSecret) && copy.connectionInfoRef == Some(dbConfigMap)
      ensures IsTrue(copy.conditions, CONNECTION_READY)
      ensures result.Ok? ==>
                StoredOrOvertaken(Hist(world.st.sh.connections, copy.key), copy.base, copy.Value())
    {
      hide Run, NoDeletes, Next, RequestOf, Fits, Grows, WithBinding, SecretKey, ConfigMapKey, IsNewest, IsTrue;
      copy.credentialsRef := Some(userSecret);
      copy.connectionInfoRef := Some(dbConfigMap);
      ghost var ready := copy.Value();
      ghost var o := WithBinding(ready, ConditionTrue, READY, SUCCESS_CONNECTION, later);
      var statusErr, second, end := UpdateStatus(copy, ConditionTrue, READY, SUCCESS_CONNECTION, later);
      BindingIsTrue(ready, later);
      BindReplied(copy.key, copy.base, o, None, second, end);
      if statusErr.Some? {
        return RequeueErr(statusErr.value);
      }
      return Ok;
    }

    /** With a service found: the cloud, the Secret, the ConfigMap and the True condition. */
    method Bind(copy: ConnectionCopy, ghost service: DatabaseService) returns (result: ReconcileResult)
      requires world.Valid()
      requires At() == InConnection(copy.key, copy.base, copy.Value(), OpenConnectionCloud(service))
      modifies world, copy
      ensures world.Valid() && world.Continues(old(world.trace), t)
      ensures At() == Returned(result)
    {
      hide Run, NoDeletes, Next, RequestOf, Fits, Grows, FailConnection, HaveConfigMap, SecretKey, ConfigMapKey,
        PcOf, IsNewest, IsTrue, CredentialsStored, ConnectionInfoStored, Labels, SecretData, ConfigMapData, WithBinding;
      ConnectionAsks(At());
      var reply, now := world.Call(t, OpenCloudService);
      CloudReplied(copy.key, copy.base, copy.Value(), service, reply, now);
      if !reply.Done? {
        result := Fail(copy, BACKEND_ERROR, Message(reply), now);
        return;
      }
      var userSecret, clock := CreateOrUpdateSecret(copy, service);
      if userSecret.Failure? {
        result := Fail(copy, BACKEND_ERROR, userSecret.error, clock);
        return;
      }
      var dbConfigMap, later := CreateOrUpdateConfigMap(copy, service);
      if dbConfigMap.Failure? {
        result := Fail(copy, BACKEND_ERROR, dbConfigMap.error, later);
        return;
      }
      result := WriteBound(copy, userSecret.value, dbConfigMap.value, later);
    }

    /** With the connection read: its inventory, the service it names, and the binding to it. */
    method Connect(copy: ConnectionCopy) returns (result: ReconcileResult)
      requires world.Valid()
      requires At() == InConnection(copy.key, copy.base, copy.Value(), ServiceInventory)
      modifies world, copy
      ensures world.Valid() && world.Continues(old(world.trace), t)
      ensures At() == Returned(result)
    {
      hide Run, NoDeletes, Next, RequestOf, Fits, Grows, FailConnection, ClusterInstance, IsNewest,
        WithBinding, PcOf, SearchSays;
      ConnectionAsks(At());
      var reply, now := world.Call(t, GetInventory(copy.spec.inventoryRef));
      ServiceReplied(copy.key, copy.base, copy.Value(), reply, now);
      if !reply.InventoryRead? {
        if reply.NotFound? {
          result := Fail(copy, INVENTORY_NOT_FOUND, reply.message, now);
          return;
        }
        return Err(Message(reply));
      }
      var instance := GetClusterInstance(reply.inventory, copy.spec.databaseServiceID);
      if instance.NoService? {
        result := Fail(copy, CONNECTION_NOT_READY, instance.message, now);
        return;
      }
      result := Bind(copy, instance.service);
    }

    /** One reconcile of a connection, whatever others do between its calls. */
    method Reconcile(key: Key) returns (result: ReconcileResult)
      requires world.Valid() && Resting(At())
      modifies world
      ensures world.Valid()
      ensures world.Continues(old(world.trace) + [Spawn(t, ConnectionStart(key))], t)
      ensures At() == Returned(result)
    {
      hide Run, NoDeletes, Next, RequestOf, Fits, Grows, FailConnection, ClusterInstance, IsNewest,
        WithBinding, PcOf;
      world.Start(t, ConnectionStart(key));
      ConnectionAsks(ConnectionStart(key));
      var reply, now := world.Call(t, GetConnection(key));
      ConnectionStartReplied(key, reply, now);
      if !reply.ConnectionRead? {
        if reply.NotFound? {
          return Ok;
        }
        return Err(Message(reply));
      }
      var connection := new ConnectionCopy(key, reply.version, reply.connection);

      result := Connect(connection);
    }
  }

  // The program points of a connection reconcile, call by call.

  lemma ConnectionAsks(pc: Pc)
    ensures pc.ConnectionStart? ==> RequestOf(pc) == GetConnection(pc.key)
    ensures pc.InConnection? && pc.atConnection.ServiceInventory? ==>
              RequestOf(pc) == GetInventory(pc.connection.spec.inventoryRef)
    ensures pc.InConnection? && pc.atConnection.OpenConnectionCloud? ==> RequestOf(pc) == OpenCloudService
  {
  }

  lemma ConnectionStartReplied(k: Key, reply: Reply, now: nat)
    ensures Next(ConnectionStart(k), reply, now)
         == if reply.ConnectionRead? then InConnection(k, reply.version, reply.connection, ServiceInventory)
            else if reply.NotFound? then Returned(Ok)
            else Returned(Err(Message(reply)))
  {
    hide InstanceNext, InventoryNext, ConnectionNext;
  }

  lemma ServiceReplied(k: Key, base: nat, o: ProviderConnection, reply: Reply, now: nat)
    ensures Next(InConnection(k, base, o, ServiceInventory), reply, now)
         == if reply.InventoryRead? then
              match ClusterInstance(reply.inventory, o.spec.databaseServiceID)
              case FoundService(service) => InConnection(k, base, o, OpenConnectionCloud(service))
              case NoService(message) => FailConnection(k, base, o, CONNECTION_NOT_READY, message, now)
            else if reply.NotFound? then FailConnection(k, base, o, INVENTORY_NOT_FOUND, reply.message, now)
            else Returned(Err(Message(reply)))
  {
    hide FailConnection, ClusterInstance;
  }

  lemma CloudReplied(k: Key, base: nat, o: ProviderConnection, service: DatabaseService, reply: Reply, now: nat)
    ensures Next(InConnection(k, base, o, OpenConnectionCloud(service)), reply, now)
         == if reply.Done? then InConnection(k, base, o, SecretGet(service))
            else FailConnection(k, base, o, BACKEND_ERROR, Message(reply), now)
  {
    hide FailConnection, HaveConfigMap, SecretRead, ConfigMapRead, ClusterInstance;
  }

  lemma SecretAsks(
    k: Key, base: nat, o: ProviderConnection, service: DatabaseService, over: Option<nat>, secret: Artefact)
    ensures RequestOf(InConnection(k, base, o, SecretGet(service))) == GetSecret(SecretKey(k))
    ensures RequestOf(InConnection(k, base, o, SecretPut(service, over, secret)))
          == PutSecret(SecretKey(k), over, secret)
  {
    hide SecretKey;
  }

  lemma SecretGetReplied(k: Key, base: nat, o: ProviderConnection, service: DatabaseService, reply: Reply, now: nat)
    ensures Next(InConnection(k, base, o, SecretGet(service)), reply, now)
         == SecretRead(k, base, o, service, reply, now)
  {
    hide SecretRead, ConfigMapRead, FailConnection, HaveConfigMap, ClusterInstance;
  }

  lemma SecretPutReplied(
    k: Key, base: nat, o: ProviderConnection, service: DatabaseService, over: Option<nat>, secret: Artefact,
    reply: Reply, now: nat)
    ensures Next(InConnection(k, base, o, SecretPut(service, over, secret)), reply, now)
         == if reply.Written? then InConnection(k, base, o, ConfigMapGet(service))
            else FailConnection(k, base, o, BACKEND_ERROR, Message(reply), now)
  {
    hide FailConnection, HaveConfigMap, SecretRead, ConfigMapRead, ClusterInstance;
  }

  lemma ConfigMapAsks(
    k: Key, base: nat, o: ProviderConnection, service: DatabaseService, over: Option<nat>, configMap: Artefact)
    ensures RequestOf(InConnection(k, base, o, ConfigMapGet(service))) == GetConfigMap(ConfigMapKey(k))
    ensures RequestOf(InConnection(k, base, o, ConfigMapPut(over, configMap)))
          == PutConfigMap(ConfigMapKey(k), over, configMap)
  {
    hide ConfigMapKey;
  }

  lemma ConfigMapGetReplied(
    k: Key, base: nat, o: ProviderConnection, service: DatabaseService, reply: Reply, now: nat)
    ensures Next(InConnection(k, base, o, ConfigMapGet(service)), reply, now) == ConfigMapRead(k, base, o, reply, now)
  {
    hide SecretRead, ConfigMapRead, FailConnection, HaveConfigMap, ClusterInstance;
  }

  lemma ConfigMapPutReplied(
    k: Key, base: nat, o: ProviderConnection, over: Option<nat>, configMap: Artefact, reply: Reply, now: nat)
    ensures Next(InConnection(k, base, o, ConfigMapPut(over, configMap)), reply, now)
         == if reply.Written? then HaveConfigMap(k, base, o, now)
            else FailConnection(k, base, o, BACKEND_ERROR, Message(reply), now)
  {
    hide FailConnection, HaveConfigMap, SecretRead, ConfigMapRead, ClusterInstance;
  }

  lemma BindReplied(k: Key, base: nat, o: ProviderConnection, failure: Option<string>, reply: Reply, now: nat)
    ensures Next(InConnection(k, base, o, BindStatus(failure)), reply, now)
         == if !reply.Written? && !reply.Conflict? then Returned(RequeueErr(Message(reply)))
            else match failure
              case Some(message) => Returned(Err(message))
              case None => Returned(Ok)
  {
    hide FailConnection, HaveConfigMap, SecretRead, ConfigMapRead, ClusterInstance;
  }
}
