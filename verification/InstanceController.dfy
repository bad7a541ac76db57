/** ProviderInstanceReconciler and the service it calls, statement by statement. */
module InstanceController {
  import opened Types
  import opened Conditions
  import opened ClusterStore
  import opened InstanceInfo
  import opened Api
  import opened Reconcilers
  import opened Answers
  import opened Operator
  import opened Growth
  import opened Invariants
  import opened ThreadSteps
  import opened Running

  /** The reconciler's own copy of the object, changed in memory before it is written back. */
  class InstanceCopy {
    const key: Key
    const spec: InstanceSpec
    var base: nat                 // the resource version the copy was read at
    var phase: Phase
    var instanceID: string
    var instanceInfo: map<string, string>
    var conditions: seq<Condition>

    function Value(): ProviderInstance
      reads this
    {
      ProviderInstance(spec, InstanceStatus(phase, instanceID, instanceInfo, conditions))
    }

    constructor (key: Key, version: nat, o: ProviderInstance)
      ensures this.key == key && base == version && Value() == o
    {
      this.key, base, spec := key, version, o.spec;
      phase, instanceID := o.status.phase, o.status.instanceID;
      instanceInfo, conditions := o.status.instanceInfo, o.status.conditions;
    }

    method SetPhase(p: Phase)
      modifies this`phase
      ensures Value() == WithPhase(old(Value()), p)
    {
      phase := p;
    }

    method UpdateClusterDetails(c: Cluster) returns (ok: bool)
      modifies this`instanceID, this`instanceInfo
      ensures ok <==> c.id != ""
      ensures ok ==> instanceID == c.id && SaysFields(instanceInfo, c) && SaysRegions(instanceInfo, c)
      ensures Value() == if ok then WithDetails(old(Value()), c) else old(Value())
    {
      if c.id == "" {
        return false;
      }
      instanceID := c.id;
      instanceInfo := PopulateInstanceInfo(c);
      return true;
    }

    method GetClusterParameter(name: string) returns (value: string)
      ensures value == Given(spec, name) && value == Parameter(Value(), name)
    {
      if |spec.parameters| == 0 {
        return "";
      }
      if name in spec.parameters {
        return spec.parameters[name];
      }
      return "";
    }
  }

  class ProviderInstanceReconciler {
    const world: World
    const t: Tid                  // the goroutine that runs it

    constructor (world: World, t: Tid)
      ensures this.world == world && this.t == t
    {
      this.world, this.t := world, t;
    }

    function At(): Pc
      reads this, world
    {
      PcOf(world.st, t)
    }

    /** Sets the condition and writes the status; a conflict is not an error. */
    method UpdateStatus(copy: InstanceCopy, status: ConditionStatus, reason: string, message: string, now: nat)
      returns (error: Option<string>, reply: Reply, later: nat)
      requires world.Valid()
      requires At().InInstance? && At().key == copy.key && At().base == copy.base
      requires At().instance == WithInstanceCondition(copy.Value(), status, reason, message, now)
      requires At().atInstance.ErrorStatus? || At().atInstance.DetailsErrorStatus? || At().atInstance.ReadyRetryStatus?
      modifies world, copy`conditions, copy`base
      ensures world.Valid() && world.Continues(old(world.trace), t)
      ensures At() == Next(old(At()), reply, later)
      ensures copy.Value() == WithInstanceCondition(old(copy.Value()), status, reason, message, now)
      ensures copy.base == if reply.Written? then reply.version else old(copy.base)
      ensures error == if reply.Written? || reply.Conflict? then None else Some(Message(reply))
      ensures reply.Written? ==> IsNewest(Hist(world.st.sh.instances, copy.key), copy.Value())
      ensures reply.Conflict? ==> old(copy.base) != |Hist(world.st.sh.instances, copy.key)| - 1
    {
      hide Run, NoDeletes, Next, Grows, SetStatusCondition, Fits, IsNewest;
      copy.conditions := SetStatusCondition(copy.conditions, CONNECTION_READY, status, reason, message, now);
      Knows(world.st, world.trace, t);
      ghost var before, pc := world.st.sh, At();
      reply, later := world.Call(t, UpdateInstanceStatus(copy.key, copy.base, copy.Value().status));
      WriteSays(before, world.st.sh, pc, reply);
      if reply.Written? {
        copy.base := reply.version;
      } else if !reply.Conflict? {
        return Some(Message(reply)), reply, later;
      }
      return None, reply, later;
    }

    /** FakeAPIClient.CreateCluster: look for the ID in the list as it was, then send. */
    method CreateCluster(copy: InstanceCopy, name: string, provider: string, now: nat)
      returns (created: Result<Cluster>, later: nat)
      requires world.Valid() && name != ""
      requires name == Wanted(copy.Value()).name && provider == Wanted(copy.Value()).cloudProvider
      requires At() == BeginCreate(copy.key, copy.base, copy.Value(), now)
      modifies world
      ensures world.Valid() && world.Continues(old(world.trace), t)
      ensures created.Failure? ==>
                At() == FailInstance(copy.key, copy.base, copy.Value(), BACKEND_ERROR, created.error, later)
      ensures created.Success? ==>
                && At() == HaveCluster(copy.key, copy.base, copy.Value(), created.value, later)
                && created.value == Wanted(copy.Value()) && AsksFor(copy.spec, created.value)
                && Made(world.st.sh.log, copy.key, created.value.id)
      ensures !Acceptable(name) ==> created == Failure(CREATION_FAILED)
    {
      hide Run, NoDeletes, FailInstance, HaveCluster, Wanted, Next, RequestOf, Fits, Grows, Made;
      WantedIs(copy.Value());
      WantedSays(copy.Value());
      AcceptableSays(name);
      hide Acceptable, AsksFor, HasSuffix;
      if HasSuffix(name, INVALID_SUFFIX) {
        return Failure(CREATION_FAILED), now;
      }
      var cluster := Cluster(ID_PREFIX + name, name, "", "", provider, "", "", "",
                             [Region("region-2", "free-tier5.cloud")], A_DATE, A_DATE);
      ghost var k, base, o := copy.key, copy.base, copy.Value();
      CreateAsks(k, base, o, cluster, Slice(0, 0), 0);
      var reply, clock := world.Call(t, ReadHeader);
      CreateHeaderReplied(k, base, o, cluster, reply, clock);
      var h := reply.h;
      var i := 0;
      while i < h.len
        invariant i <= h.len
        invariant world.Valid() && world.Continues(old(world.trace), t)
        invariant At() == InInstance(k, base, o, CreateScan(cluster, h, i))
      {
        CreateAsks(k, base, o, cluster, h, i);
        reply, clock := world.Call(t, ReadSnapshot(h, i));
        CreateScanReplied(k, base, o, cluster, h, i, reply, clock);
        if reply.cluster.id == cluster.id {
          return Failure(ALREADY_EXISTS), clock;
        }
        i := i + 1;
      }
      CreateAsks(k, base, o, cluster, h, i);
      reply, clock := world.Call(t, SendAdd(cluster, copy.key));
      CreateScanReplied(k, base, o, cluster, h, i, reply, clock);
      assert Made(world.st.sh.log, k, cluster.id) by { SentIsMade(world.st.sh, cluster, k, reply); }
      return Success(cluster), clock;
    }

    /** FakeAPIClient.GetCluster: the first cluster with the ID in the list as it was. */
    method GetCluster(copy: InstanceCopy, id: string) returns (found: Result<Cluster>, later: nat)
      requires world.Valid() && id == copy.Value().status.instanceID
      requires At() == InInstance(copy.key, copy.base, copy.Value(), GetHeader)
      modifies world
      ensures world.Valid() && world.Continues(old(world.trace), t)
      ensures found.Failure? ==>
                At() == FailInstance(copy.key, copy.base, copy.Value(), BACKEND_ERROR, found.error, later)
      ensures found.Success? ==>
                && At() == HaveCluster(copy.key, copy.base, copy.Value(), found.value, later)
                && found.value.id == id
                && id in Ids(List(world.st.sh.store))
    {
      hide Run, NoDeletes, FailInstance, HaveCluster, Next, RequestOf, Fits, Grows, ThreadOK;
      ghost var k, base, o := copy.key, copy.base, copy.Value();
      GetAsks(k, base, o, Slice(0, 0), 0);
      var reply, clock := world.Call(t, ReadHeader);
      GetHeaderReplied(k, base, o, reply, clock);
      var h := reply.h;
      var i := 0;
      while i < h.len
        invariant i <= h.len
        invariant world.Valid() && world.Continues(old(world.trace), t)
        invariant At() == InInstance(k, base, o, GetScan(h, i))
      {
        GetAsks(k, base, o, h, i);
        Knows(world.st, world.trace, t);
        ghost var before := world.st.sh;
        reply, clock := world.Call(t, ReadSnapshot(h, i));
        GetScanReplied(k, base, o, h, i, reply, clock);
        if reply.cluster.id == id {
          SeenIsListed(before, world.st.sh, InInstance(k, base, o, GetScan(h, i)), reply);
          return Success(reply.cluster), clock;
        }
        i := i + 1;
      }
      GetAsks(k, base, o, h, i);
      reply, clock := world.Call(t, Nothing);
      GetScanReplied(k, base, o, h, i, reply, clock);
      return Failure(NOT_FOUND), clock;
    }

    /** FakeProviderService.CreateCluster: defaults and required parameters, then the client's. */
    method CreateWithParameters(copy: InstanceCopy, now: nat) returns (created: Result<Cluster>, later: nat)
      requires world.Valid()
      requires At() == BeginCreate(copy.key, copy.base, copy.Value(), now)
      modifies world
      ensures world.Valid() && world.Continues(old(world.trace), t)
      ensures created.Failure? ==>
                At() == FailInstance(copy.key, copy.base, copy.Value(), BACKEND_ERROR, created.error, later)
      ensures created.Success? ==>
                && At() == HaveCluster(copy.key, copy.base, copy.Value(), created.value, later)
                && created.value == Wanted(copy.Value()) && AsksFor(copy.spec, created.value)
                && Made(world.st.sh.log, copy.key, created.value.id)
      ensures Given(copy.spec, "name") == "" ==> created == Failure(NAME_REQUIRED)
      ensures Given(copy.spec, "name") != "" && !Acceptable(Given(copy.spec, "name")) ==>
                created == Failure(CREATION_FAILED)
    {
      hide Run, NoDeletes, FailInstance, HaveCluster, Next, RequestOf, Made, Grows, Wanted;
      hide Acceptable, AsksFor;
      WantedIs(copy.Value());
      var cloudProvider := copy.GetClusterParameter(PROVIDER_PARAMETER);
      if |cloudProvider| == 0 {
        cloudProvider := DEFAULT_PROVIDER;
      }
      var clusterName := copy.GetClusterParameter(NAME_PARAMETER);
      if |clusterName| == 0 {
        return Failure(NAME_REQUIRED), now;
      }
      created, later := CreateCluster(copy, clusterName, cloudProvider, now);
    }

    /** The error exits: write a False condition, then report the error, or the failure to write it. */
    method Fail(copy: InstanceCopy, reason: string, message: string, now: nat) returns (result: ReconcileResult)
      requires world.Valid()
      requires At() == FailInstance(copy.key, copy.base, copy.Value(), reason, message, now)
      modifies world, copy
      ensures world.Valid() && world.Continues(old(world.trace), t)
      ensures At() == Returned(result) && (result == Err(message) || result.RequeueErr?)
      ensures copy.Value() == WithInstanceCondition(old(copy.Value()), ConditionFalse, reason, message, now)
      ensures result.Err? ==>
                StoredOrOvertaken(Hist(world.st.sh.instances, copy.key), old(copy.base), copy.Value())
    {
      hide Run, NoDeletes, WithInstanceCondition, IsNewest;
      var statusErr, reply, later := UpdateStatus(copy, ConditionFalse, reason, message, now);
      if statusErr.Some? {
        return RequeueErr(statusErr.value);
      }
      return Err(message);
    }

    /** The write of a Ready status; if it fails other than by a conflict, once more with a condition. */
    method WriteReady(copy: InstanceCopy) returns (result: ReconcileResult)
      requires world.Valid()
      requires At() == InInstance(copy.key, copy.base, copy.Value(), ReadyStatus)
      modifies world, copy
      ensures world.Valid() && world.Continues(old(world.trace), t)
      ensures At() == Returned(result) && (result.Ok? || result.OkRequeue? || result.RequeueErr?)
      ensures result.Ok? ==>
                StoredOrOvertaken(Hist(world.st.sh.instances, copy.key), old(copy.base), copy.Value())
      ensures result.OkRequeue? ==> old(copy.base) != |Hist(world.st.sh.instances, copy.key)| - 1
      ensures old(copy.Value()).status == copy.Value().status.(conditions := old(copy.Value()).status.conditions)
    {
      hide Run, NoDeletes, Next, RequestOf, Fits, Grows, IsNewest, SetStatusCondition;
      ReadyAsks(copy.key, copy.base, copy.Value());
      Knows(world.st, world.trace, t);
      ghost var before, pc := world.st.sh, At();
      var reply, clock := world.Call(t, UpdateInstanceStatus(copy.key, copy.base, copy.Value().status));
      ReadyReplied(copy.key, copy.base, copy.Value(), reply, clock);
      WriteSays(before, world.st.sh, pc, reply);
      if !reply.Written? {
        if reply.Conflict? {
          return OkRequeue;
        }
        var statusErr, second, later := UpdateStatus(copy, ConditionTrue, READY, Message(reply), clock);
        RetryReplied(copy.key, old(copy.base), copy.Value(), second, later);
        if statusErr.Some? {
          return RequeueErr(statusErr.value);
        }
      }
      return Ok;
    }

    /** From the cluster in hand to the end of the reconcile. */
    method Finish(copy: InstanceCopy, cluster: Cluster, now: nat) returns (result: ReconcileResult)
      requires world.Valid()
      requires At() == HaveCluster(copy.key, copy.base, copy.Value(), cluster, now)
      modifies world, copy
      ensures world.Valid() && world.Continues(old(world.trace), t)
      ensures At() == Returned(result)
    {
      hide Run, NoDeletes, Next, RequestOf, Fits, Grows, WithInstanceCondition, Info, IsNewest;
      var ok := copy.UpdateClusterDetails(cluster);
      if !ok {
        var statusErr, reply, later := UpdateStatus(copy, ConditionFalse, BACKEND_ERROR, NO_ID, now);
        DetailsReplied(copy.key, old(copy.base), copy.Value(), reply, later);
        if statusErr.Some? {
          return RequeueErr(statusErr.value);
        }
      }
      copy.SetPhase(Ready);
      result := WriteReady(copy);
    }

    /** From the cloud service: create or get the cluster, then finish. */
    method Provision(instance: InstanceCopy) returns (result: ReconcileResult)
      requires world.Valid()
      requires At() == InInstance(instance.key, instance.base, instance.Value(), OpenInstanceCloud)
      modifies world, instance
      ensures world.Valid() && world.Continues(old(world.trace), t)
      ensures At() == Returned(result)
    {
      hide Run, NoDeletes, Next, RequestOf, Fits, Grows, FailInstance, HaveCluster, BeginCreate, IsNewest;
      InstanceAsks(At());
      var reply, now := world.Call(t, OpenCloudService);
      CloudReplied(instance.key, instance.base, instance.Value(), reply, now);
      if !reply.Done? {
        result := Fail(instance, BACKEND_ERROR, Message(reply), now);
        return;
      }

      var cluster: Result<Cluster>;
      if |instance.instanceID| == 0 {
        instance.SetPhase(Creating);
        cluster, now := CreateWithParameters(instance, now);
      } else {
        cluster, now := GetCluster(instance, instance.instanceID);
      }
      if cluster.Failure? {
        result := Fail(instance, BACKEND_ERROR, cluster.error, now);
        return;
      }
      result := Finish(instance, cluster.value, now);
    }

    /**
     One reconcile of an instance. Whatever others do between its calls, the run it belongs to goes
     from its start, through every point of the program and no other, to the result it returns.
     */
    method Reconcile(key: Key) returns (result: ReconcileResult)
      requires world.Valid() && Resting(At())
      modifies world
      ensures world.Valid()
      ensures world.Continues(old(world.trace) + [Spawn(t, InstanceStart(key))], t)
      ensures At() == Returned(result)
    {
      hide Run, NoDeletes, Next, RequestOf, Fits, Grows, FailInstance, HaveCluster, BeginCreate, IsNewest;
      world.Start(t, InstanceStart(key));
      InstanceAsks(InstanceStart(key));
      var reply, now := world.Call(t, GetInstance(key));
      StartReplied(key, reply, now);
      if !reply.InstanceRead? {
        if reply.NotFound? {
          return Ok;
        }
        return Err(Message(reply));
      }
      var instance := new InstanceCopy(key, reply.version, reply.instance);
      instance.SetPhase(Unknown);

      InstanceAsks(At());
      reply, now := world.Call(t, GetInventory(instance.spec.inventoryRef));
      InventoryReplied(key, instance.base, instance.Value(), reply, now);
      if !reply.InventoryRead? {
        if reply.NotFound? {
          result := Fail(instance, INVENTORY_NOT_FOUND, reply.message, now);
          return;
        }
        return Err(Message(reply));
      }
      instance.SetPhase(Pending);

      result := Provision(instance);
    }
  }

  // The program points a create or a get passes, call by call.

  lemma CreateAsks(k: Key, base: nat, o: ProviderInstance, want: Cluster, h: Slice, i: nat)
    ensures RequestOf(InInstance(k, base, o, CreateHeader(want))) == ReadHeader
    ensures RequestOf(InInstance(k, base, o, CreateScan(want, h, i)))
         == if i < h.len then ReadSnapshot(h, i) else SendAdd(want, k)
  {
  }

  lemma SentIsMade(sh: Shared, c: Cluster, k: Key, reply: Reply)
    requires Fits(sh, SendAdd(c, k), reply)
    ensures Made(sh.log, k, c.id)
  {
  }

  lemma CreateHeaderReplied(k: Key, base: nat, o: ProviderInstance, want: Cluster, reply: Reply, now: nat)
    ensures var pc := Next(InInstance(k, base, o, CreateHeader(want)), reply, now);
            pc != Panicked ==> reply.Header? && pc == InInstance(k, base, o, CreateScan(want, reply.h, 0))
  {
  }

  lemma CreateScanReplied(
    k: Key, base: nat, o: ProviderInstance, want: Cluster, h: Slice, i: nat, reply: Reply, now: nat)
    ensures var pc := Next(InInstance(k, base, o, CreateScan(want, h, i)), reply, now);
            pc != Panicked ==>
              if i < h.len then
                reply.Element? &&
                pc == if reply.cluster.id == want.id then FailInstance(k, base, o, BACKEND_ERROR, ALREADY_EXISTS, now)
                      else InInstance(k, base, o, CreateScan(want, h, i + 1))
              else pc == HaveCluster(k, base, o, want, now)
  {
    hide FailInstance, HaveCluster;
  }

  /** A cluster seen through an old header is in the list as it now is. */
  lemma SeenIsListed(before: Shared, after: Shared, pc: Pc, reply: Reply)
    requires ThreadOK(before, pc) && Grows(before, after)
    requires pc.InInstance? && pc.atInstance.GetScan? && pc.atInstance.i < pc.atInstance.h.len
    requires Fits(after, ReadSnapshot(pc.atInstance.h, pc.atInstance.i), reply)
    ensures reply.Element? && reply.cluster.id in Ids(List(after.store))
  {
    hide Made;
    assert SeesIds(after.store, pc.atInstance.h);
    assert Ids(List(after.store))[pc.atInstance.i] == reply.cluster.id;
  }

  lemma GetAsks(k: Key, base: nat, o: ProviderInstance, h: Slice, i: nat)
    ensures RequestOf(InInstance(k, base, o, GetHeader)) == ReadHeader
    ensures RequestOf(InInstance(k, base, o, GetScan(h, i))) == if i < h.len then ReadSnapshot(h, i) else Nothing
  {
  }

  lemma GetHeaderReplied(k: Key, base: nat, o: ProviderInstance, reply: Reply, now: nat)
    ensures var pc := Next(InInstance(k, base, o, GetHeader), reply, now);
            pc != Panicked ==> reply.Header? && pc == InInstance(k, base, o, GetScan(reply.h, 0))
  {
  }

  lemma GetScanReplied(k: Key, base: nat, o: ProviderInstance, h: Slice, i: nat, reply: Reply, now: nat)
    ensures var pc := Next(InInstance(k, base, o, GetScan(h, i)), reply, now);
            pc != Panicked ==>
              if i < h.len then
                reply.Element? &&
                pc == if reply.cluster.id == o.status.instanceID then HaveCluster(k, base, o, reply.cluster, now)
                      else InInstance(k, base, o, GetScan(h, i + 1))
              else pc == FailInstance(k, base, o, BACKEND_ERROR, NOT_FOUND, now)
  {
    hide FailInstance, HaveCluster;
  }

  // The program points around them.

  lemma InstanceAsks(pc: Pc)
    ensures pc.InstanceStart? ==> RequestOf(pc) == GetInstance(pc.key)
    ensures pc.InInstance? && pc.atInstance.FindInventory? ==>
              RequestOf(pc) == GetInventory(pc.instance.spec.inventoryRef)
    ensures pc.InInstance? && pc.atInstance.OpenInstanceCloud? ==> RequestOf(pc) == OpenCloudService
  {
  }

  lemma StartReplied(k: Key, reply: Reply, now: nat)
    ensures Next(InstanceStart(k), reply, now)
         == if reply.InstanceRead? then InInstance(k, reply.version, WithPhase(reply.instance, Unknown), FindInventory)
            else if reply.NotFound? then Returned(Ok)
            else Returned(Err(Message(reply)))
  {
  }

  lemma InventoryReplied(k: Key, base: nat, o: ProviderInstance, reply: Reply, now: nat)
    ensures Next(InInstance(k, base, o, FindInventory), reply, now)
         == if reply.InventoryRead? then InInstance(k, base, WithPhase(o, Pending), OpenInstanceCloud)
            else if reply.NotFound? then FailInstance(k, base, o, INVENTORY_NOT_FOUND, reply.message, now)
            else Returned(Err(Message(reply)))
  {
    hide FailInstance;
  }

  lemma CloudReplied(k: Key, base: nat, o: ProviderInstance, reply: Reply, now: nat)
    ensures Next(InInstance(k, base, o, OpenInstanceCloud), reply, now)
         == if !reply.Done? then FailInstance(k, base, o, BACKEND_ERROR, Message(reply), now)
            else if o.status.instanceID == "" then BeginCreate(k, base, WithPhase(o, Creating), now)
            else InInstance(k, base, o, GetHeader)
  {
    hide FailInstance, BeginCreate;
  }

  lemma DetailsReplied(k: Key, base: nat, o: ProviderInstance, reply: Reply, now: nat)
    ensures Next(InInstance(k, base, o, DetailsErrorStatus), reply, now)
         == if reply.Written? then InInstance(k, reply.version, WithPhase(o, Ready), ReadyStatus)
            else if reply.Conflict? then InInstance(k, base, WithPhase(o, Ready), ReadyStatus)
            else Returned(RequeueErr(Message(reply)))
  {
    hide WithInstanceCondition, FailInstance, HaveCluster, BeginCreate;
  }

  lemma ReadyAsks(k: Key, base: nat, o: ProviderInstance)
    ensures RequestOf(InInstance(k, base, o, ReadyStatus)) == UpdateInstanceStatus(k, base, o.status)
  {
  }

  lemma ReadyReplied(k: Key, base: nat, o: ProviderInstance, reply: Reply, now: nat)
    ensures Next(InInstance(k, base, o, ReadyStatus), reply, now)
         == if reply.Written? then Returned(Ok)
            else if reply.Conflict? then Returned(OkRequeue)
            else InInstance(k, base, WithInstanceCondition(o, ConditionTrue, READY, Message(reply), now),
                  ReadyRetryStatus)
  {
    hide WithInstanceCondition, FailInstance, HaveCluster, BeginCreate;
  }

  lemma RetryReplied(k: Key, base: nat, o: ProviderInstance, reply: Reply, now: nat)
    ensures Next(InInstance(k, base, o, ReadyRetryStatus), reply, now)
         == if reply.Written? || reply.Conflict? then Returned(Ok) else Returned(RequeueErr(Message(reply)))
  {
    hide WithInstanceCondition, FailInstance, HaveCluster, BeginCreate;
  }

  lemma WantedIs(o: ProviderInstance)
    ensures Wanted(o).name == Parameter(o, NAME_PARAMETER)
    ensures Wanted(o).cloudProvider
         == if Parameter(o, PROVIDER_PARAMETER) == "" then DEFAULT_PROVIDER else Parameter(o, PROVIDER_PARAMETER)
    ensures Wanted(o) == Cluster(ID_PREFIX + Wanted(o).name, Wanted(o).name, "", "", Wanted(o).cloudProvider, "",
          "", "",
                                 [Region("region-2", "free-tier5.cloud")], A_DATE, A_DATE)
  {
  }
}
