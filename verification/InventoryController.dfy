/** ProviderInventoryReconciler and the discovery it calls, statement by statement. */
module InventoryController {
  import opened Types
  import opened Conditions
  import opened ClusterStore
  import opened InstanceInfo
  import opened Api
  import opened Reconcilers
  import opened Operator
  import opened Growth
  import opened ThreadSteps
  import opened Running

  class InventoryCopy {
    const key: Key
    const base: nat
    const spec: InventorySpec
    var services: seq<DatabaseService>
    var conditions: seq<Condition>

    function Value(): ProviderInventory
      reads this
    {
      ProviderInventory(spec, InventoryStatus(services, conditions))
    }

    constructor (key: Key, version: nat, o: ProviderInventory)
      ensures this.key == key && base == version && Value() == o
    {
      this.key, base, spec := key, version, o.spec;
      services, conditions := o.status.services, o.status.conditions;
    }
  }

  lemma StillListed(a: Shared, b: Shared, services: seq<DatabaseService>)
    requires Grows(a, b) && ServiceIds(services) <= Ids(List(a.store))
    ensures ServiceIds(services) <= Ids(List(b.store))
  {
  }

  class ProviderInventoryReconciler {
    const world: World
    const t: Tid

    constructor (world: World, t: Tid)
      ensures this.world == world && this.t == t
    {
      this.world, this.t := world, t;
    }

    function At(): Pc
      reads this, world
    {
      PcOf(world.st, t)
    }

    /** The loop of DiscoverClusters: the length is fixed, the slice is read again at each index. */
    method DiscoverClusters(ghost k: Key, ghost base: nat, ghost o: ProviderInventory, n: nat)
      returns (found: seq<DatabaseService>, later: nat)
      requires world.Valid()
      requires At() == InInventory(k, base, o, DiscoverScan(n, []))
      modifies world
      ensures world.Valid() && world.Continues(old(world.trace), t)
      ensures |found| == n && At() == InInventory(k, base, o, DiscoverScan(n, found))
      ensures ServiceIds(found) <= Ids(List(world.st.sh.store))
    {
      hide Run, NoDeletes, Next, RequestOf, Fits, Grows, Info;
      found, later := [], 0;
      for i := 0 to n
        invariant |found| == i
        invariant world.Valid() && world.Continues(old(world.trace), t)
        invariant At() == InInventory(k, base, o, DiscoverScan(n, found))
      {
        DiscoverAsks(k, base, o, n, found);
        var reply, clock := world.Call(t, ReadShared(i));
        DiscoverReplied(k, base, o, n, found, reply, clock);
        var info := PopulateInstanceInfo(reply.cluster);
        found := found + [DatabaseService(reply.cluster.id, reply.cluster.name, info)];
      }
      assert ServiceIds(found) <= Ids(List(world.st.sh.store)) by { Knows(world.st, world.trace, t); }
    }

    /** Sets the condition and writes the status; a conflict is not an error. */
    method UpdateInventoryStatus(copy: InventoryCopy, status: ConditionStatus, reason: string, now: nat)
      returns (error: Option<string>, reply: Reply, later: nat)
      requires world.Valid()
      requires At().InInventory? && At().key == copy.key && At().base == copy.base
      requires At().inventory == WithSynced(copy.Value(), status, reason, now) && At().atInventory.SyncStatus?
      modifies world, copy`conditions
      ensures world.Valid() && world.Continues(old(world.trace), t)
      ensures At() == Next(old(At()), reply, later)
      ensures copy.Value() == WithSynced(old(copy.Value()), status, reason, now)
      ensures error == if reply.Written? || reply.Conflict? then None else Some(Message(reply))
      ensures reply.Written? ==> IsNewest(Hist(world.st.sh.inventories, copy.key), copy.Value())
      ensures reply.Conflict? ==> copy.base != |Hist(world.st.sh.inventories, copy.key)| - 1
      ensures Grows(old(world.st).sh, world.st.sh)
    {
      hide Run, NoDeletes, Next, Grows, SetStatusCondition, Fits, IsNewest;
      copy.conditions := SetStatusCondition(copy.conditions, INVENTORY_READY, status, reason, reason, now);
      Knows(world.st, world.trace, t);
      ghost var before, pc := world.st.sh, At();
      reply, later := world.Call(t, Request.UpdateInventoryStatus(copy.key, copy.base, copy.Value().status));
      WriteSays(before, world.st.sh, pc, reply);
      error := if reply.Written? || reply.Conflict? then None else Some(Message(reply));
    }

    /** The error exits: what goes wrong with the status is only logged. */
    method Fail(copy: InventoryCopy, reason: string, message: string, now: nat) returns (result: ReconcileResult)
      requires world.Valid()
      requires At() == InInventory(copy.key, copy.base, WithSynced(copy.Value(), ConditionFalse, reason, now),
                                   SyncStatus(Some(message)))
      modifies world, copy
      ensures world.Valid() && world.Continues(old(world.trace), t)
      ensures At() == Returned(result) && result == Err(message)
    {
      hide Run, NoDeletes, WithSynced, Next, IsNewest;
      ghost var o := WithSynced(copy.Value(), ConditionFalse, reason, now);
      var error, reply, later := UpdateInventoryStatus(copy, ConditionFalse, reason, now);
      SyncReplied(copy.key, copy.base, o, Some(message), reply, later);
      return Err(message);
    }

    method Synchronize(copy: InventoryCopy) returns (result: ReconcileResult)
      requires world.Valid()
      requires At() == InInventory(copy.key, copy.base, copy.Value(), DiscoverLength)
      modifies world, copy
      ensures world.Valid() && world.Continues(old(world.trace), t)
      ensures At() == Returned(result) && (result.Ok? || result.Err?)
      ensures ServiceIds(copy.services) <= Ids(List(world.st.sh.store))
      ensures result.Ok? ==>
                StoredOrOvertaken(Hist(world.st.sh.inventories, copy.key), copy.base, copy.Value())
    {
      hide Run, NoDeletes, Next, RequestOf, Fits, Grows, WithSynced, IsNewest, List;
      ghost var k, base, o := copy.key, copy.base, copy.Value();
      DiscoverAsks(k, base, o, 0, []);
      var reply, now := world.Call(t, ReadLength);
      LengthReplied(k, base, o, reply, now);
      var instanceLst, clock := DiscoverClusters(k, base, o, reply.n);

      DiscoverAsks(k, base, o, reply.n, instanceLst);
      ghost var n := reply.n;
      ghost var seen := world.st.sh;
      reply, now := world.Call(t, Nothing);
      StillListed(seen, world.st.sh, instanceLst);
      DiscoverReplied(k, base, o, n, instanceLst, reply, now);
      copy.services := instanceLst;
      ghost var found := world.st.sh;
      ghost var synced := WithSynced(copy.Value(), ConditionTrue, SYNC_OK, now);
      var error, second, later := UpdateInventoryStatus(copy, ConditionTrue, SYNC_OK, now);
      StillListed(found, world.st.sh, instanceLst);
      SyncReplied(k, base, synced, None, second, later);
      if error.Some? {
        return Err(error.value);
      }
      return Ok;
    }

    /** From the cloud service to the end of the reconcile. */
    method Discover(inventory: InventoryCopy) returns (result: ReconcileResult)
      requires world.Valid()
      requires At() == InInventory(inventory.key, inventory.base, inventory.Value(), OpenInventoryCloud)
      modifies world, inventory
      ensures world.Valid() && world.Continues(old(world.trace), t)
      ensures At() == Returned(result)
    {
      hide Run, NoDeletes, Next, RequestOf, Fits, Grows, WithSynced, IsNewest;
      InventoryAsks(At());
      var reply, now := world.Call(t, OpenCloudService);
      OpenReplied(inventory.key, inventory.base, inventory.Value(), reply, now);
      if !reply.Done? {
        result := Fail(inventory, INPUT_ERROR, Message(reply), now);
        return;
      }
      InventoryAsks(At());
      reply, now := world.Call(t, ListClusters);
      ListReplied(inventory.key, inventory.base, inventory.Value(), reply, now);
      if !reply.Done? {
        result := Fail(inventory, BACKEND_ERROR, Message(reply), now);
        return;
      }
      result := Synchronize(inventory);
    }

    /** One reconcile of an inventory, whatever others do between its calls. */
    method Reconcile(key: Key) returns (result: ReconcileResult)
      requires world.Valid() && Resting(At())
      modifies world
      ensures world.Valid()
      ensures world.Continues(old(world.trace) + [Spawn(t, InventoryStart(key))], t)
      ensures At() == Returned(result)
    {
      hide Run, NoDeletes, Next, RequestOf, Fits, Grows, WithSynced, IsNewest;
      world.Start(t, InventoryStart(key));
      InventoryAsks(InventoryStart(key));
      var reply, now := world.Call(t, GetInventory(key));
      InventoryStartReplied(key, reply, now);
      if !reply.InventoryRead? {
        if reply.NotFound? {
          return Ok;
        }
        return Err(Message(reply));
      }
      var inventory := new InventoryCopy(key, reply.version, reply.inventory);

      result := Discover(inventory);
    }
  }

  // The program points of an inventory reconcile, call by call.

  lemma InventoryAsks(pc: Pc)
    ensures pc.InventoryStart? ==> RequestOf(pc) == GetInventory(pc.key)
    ensures pc.InInventory? && pc.atInventory.OpenInventoryCloud? ==> RequestOf(pc) == OpenCloudService
    ensures pc.InInventory? && pc.atInventory.DiscoverList? ==> RequestOf(pc) == ListClusters
  {
  }

  lemma InventoryStartReplied(k: Key, reply: Reply, now: nat)
    ensures Next(InventoryStart(k), reply, now)
         == if reply.InventoryRead? then InInventory(k, reply.version, reply.inventory, OpenInventoryCloud)
            else if reply.NotFound? then Returned(Ok)
            else Returned(Err(Message(reply)))
  {
  }

  lemma OpenReplied(k: Key, base: nat, o: ProviderInventory, reply: Reply, now: nat)
    ensures Next(InInventory(k, base, o, OpenInventoryCloud), reply, now)
         == if reply.Done? then InInventory(k, base, o, DiscoverList)
            else InInventory(k, base, WithSynced(o, ConditionFalse, INPUT_ERROR, now), SyncStatus(Some(Message(reply))))
  {
    hide WithSynced;
  }

  lemma ListReplied(k: Key, base: nat, o: ProviderInventory, reply: Reply, now: nat)
    ensures Next(InInventory(k, base, o, DiscoverList), reply, now)
         == if reply.Done? then InInventory(k, base, o, DiscoverLength)
            else InInventory(k, base, WithSynced(o, ConditionFalse, BACKEND_ERROR, now),
                  SyncStatus(Some(Message(reply))))
  {
    hide WithSynced;
  }

  lemma DiscoverAsks(k: Key, base: nat, o: ProviderInventory, n: nat, found: seq<DatabaseService>)
    ensures RequestOf(InInventory(k, base, o, DiscoverLength)) == ReadLength
    ensures RequestOf(InInventory(k, base, o, DiscoverScan(n, found)))
         == if |found| < n then ReadShared(|found|) else Nothing
  {
  }

  lemma LengthReplied(k: Key, base: nat, o: ProviderInventory, reply: Reply, now: nat)
    ensures var pc := Next(InInventory(k, base, o, DiscoverLength), reply, now);
            pc != Panicked ==> reply.Length? && pc == InInventory(k, base, o, DiscoverScan(reply.n, []))
  {
  }

  lemma DiscoverReplied(
    k: Key, base: nat, o: ProviderInventory, n: nat, found: seq<DatabaseService>, reply: Reply, now: nat)
    ensures var pc := Next(InInventory(k, base, o, DiscoverScan(n, found)), reply, now);
            pc != Panicked ==>
              if |found| < n then
                reply.Element? && pc == InInventory(k, base, o, DiscoverScan(n, found + [ServiceOf(reply.cluster)]))
              else
                pc == InInventory(k, base,
                      WithSynced(o.(status := o.status.(services := found)), ConditionTrue, SYNC_OK, now),
                                  SyncStatus(None))
  {
    hide WithSynced, Info;
  }

  lemma SyncReplied(k: Key, base: nat, o: ProviderInventory, failure: Option<string>, reply: Reply, now: nat)
    ensures Next(InInventory(k, base, o, SyncStatus(failure)), reply, now)
         == match failure
            case Some(message) => Returned(Err(message))
            case None => if reply.Written? || reply.Conflict? then Returned(Ok) else Returned(Err(Message(reply)))
  {
  }
}
