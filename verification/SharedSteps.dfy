/** Every step keeps what is stored in order. */
module SharedSteps {
  import opened Types
  import opened Conditions
  import opened ClusterStore
  import opened Api
  import opened Operator
  import opened Invariants

  lemma PrefixStable(ids: seq<string>, more: seq<string>, services: seq<DatabaseService>)
    requires ServiceIds(services) <= ids <= more
    ensures ServiceIds(services) <= more
  {
  }

  lemma ConnectionHistoryStable(ids: seq<string>, more: seq<string>, h: History<ProviderConnection>)
    requires ids <= more && ConnectionHistoryOK(ids, h)
    ensures ConnectionHistoryOK(more, h)
  {
    assert forall id :: id in ids ==> id in more;
    assert forall v :: 0 <= v < |h| && h[v].Live? ==> ConnectionVersionOK(ids, Previous(h, v), h[v].obj);
  }

  lemma InventoryHistoryStable(ids: seq<string>, more: seq<string>, h: History<ProviderInventory>)
    requires ids <= more && InventoryHistoryOK(ids, h)
    ensures InventoryHistoryOK(more, h)
  {
    forall v | 0 <= v < |h| && h[v].Live?
      ensures InventoryVersionOK(more, Previous(h, v), h[v].obj)
    {
      assert InventoryVersionOK(ids, Previous(h, v), h[v].obj);
      PrefixStable(ids, more, h[v].obj.status.services);
    }
  }

  // ---------------------------------------------------------------- appending

  lemma InstanceCommitOK(
    log: seq<Accepted>, k: Key, h: History<ProviderInstance>, base: nat, status: InstanceStatus, env: Env)
    requires InstanceHistoryOK(log, k, h) && LiveAt(h, base)
    requires WriteOnce(h[base].obj.status, status) && PhaseOK(status)
    requires status.instanceID != "" ==> Made(log, k, status.instanceID)
    ensures InstanceHistoryOK(log, k, Commit(h, base, h[base].obj.(status := status), env).0)
  {
  }

  lemma InstanceUserOK(log: seq<Accepted>, k: Key, h: History<ProviderInstance>, spec: InstanceSpec)
    requires InstanceHistoryOK(log, k, h)
    ensures InstanceHistoryOK(log, k, AppliedInstance(h, spec))
    ensures InstanceHistoryOK(log, k, Deleted(h))
  {
  }

  lemma InventoryCommitOK(ids: seq<string>, h: History<ProviderInventory>, base: nat, status: InventoryStatus, env: Env)
    requires InventoryHistoryOK(ids, h) && LiveAt(h, base)
    requires ServiceIds(h[base].obj.status.services) <= ServiceIds(status.services) <= ids
    ensures InventoryHistoryOK(ids, Commit(h, base, h[base].obj.(status := status), env).0)
  {
  }

  lemma InventoryUserOK(ids: seq<string>, h: History<ProviderInventory>, spec: InventorySpec)
    requires InventoryHistoryOK(ids, h)
    ensures InventoryHistoryOK(ids, AppliedInventory(h, spec))
    ensures InventoryHistoryOK(ids, Deleted(h))
  {
  }

  lemma ConnectionCommitOK(
    ids: seq<string>, h: History<ProviderConnection>, base: nat, status: ConnectionStatus, env: Env)
    requires ConnectionHistoryOK(ids, h) && LiveAt(h, base)
    requires OneOfEach(status.conditions)
    requires IsTrue(status.conditions, CONNECTION_READY) ==> h[base].obj.spec.databaseServiceID in ids
    ensures ConnectionHistoryOK(ids, Commit(h, base, h[base].obj.(status := status), env).0)
  {
  }

  lemma ConnectionUserOK(ids: seq<string>, h: History<ProviderConnection>, spec: ConnectionSpec)
    requires ConnectionHistoryOK(ids, h)
    ensures ConnectionHistoryOK(ids, AppliedConnection(h, spec))
    ensures ConnectionHistoryOK(ids, Deleted(h))
  {
  }

  // -------------------------------------------------------------------- steps

  lemma WorkerKeeps(sh: Shared, w: StoreAction)
    requires SharedOK(sh) && !Deletes(w) && !w.AddSend?
    ensures SharedOK(sh.(store := StoreStep(sh.store, w)))
  {
    hide StoreStep, InventoryHistoryOK, ConnectionHistoryOK, InstanceHistoryOK, Pipeline, List;
    IdsGrow(sh.store, w);
    var sh' := sh.(store := StoreStep(sh.store, w));
    forall k
      ensures InventoryHistoryOK(Ids(List(sh'.store)), Hist(sh'.inventories, k))
      ensures ConnectionHistoryOK(Ids(List(sh'.store)), Hist(sh'.connections, k))
    {
      InventoryHistoryStable(Ids(List(sh.store)), Ids(List(sh'.store)), Hist(sh.inventories, k));
      ConnectionHistoryStable(Ids(List(sh.store)), Ids(List(sh'.store)), Hist(sh.connections, k));
    }
  }

  lemma AcceptKeeps(sh: Shared, c: Cluster, owner: Key)
    requires SharedOK(sh) && |sh.store.addBuf| < CAPACITY
    ensures SharedOK(Accept(sh, c, owner))
    ensures Made(Accept(sh, c, owner).log, owner, c.id)
  {
    hide InventoryHistoryOK, ConnectionHistoryOK, InstanceHistoryOK;
    var sh' := Accept(sh, c, owner);
    assert sh'.log[|sh.log|] == Accepted(c, owner);
    assert Pipeline(sh'.store) == Pipeline(sh.store) + [c];
    assert Clusters(sh'.log) == Clusters(sh.log) + [c];
    assert Ids(Pipeline(sh'.store)) == Ids(Pipeline(sh.store)) + [c.id];
    assert Ids(SEEDS + Clusters(sh'.log)) == Ids(SEEDS + Clusters(sh.log)) + [c.id];
    forall k
      ensures InstanceHistoryOK(sh'.log, k, Hist(sh'.instances, k))
    {
      InstanceHistoryStable(sh.log, sh'.log, k, Hist(sh.instances, k));
    }
  }

  lemma InstanceWriteKeeps(sh: Shared, k: Key, base: nat, status: InstanceStatus, env: Env)
    requires SharedOK(sh) && LiveAt(Hist(sh.instances, k), base)
    requires WriteOnce(Hist(sh.instances, k)[base].obj.status, status) && PhaseOK(status)
    requires status.instanceID != "" ==> Made(sh.log, k, status.instanceID)
    ensures SharedOK(UpdateInstance(sh, k, base, status, env).0)
  {
    hide InventoryHistoryOK, ConnectionHistoryOK, InstanceHistoryOK, Commit, PhaseOK, Pipeline, List;
    InstanceCommitOK(sh.log, k, Hist(sh.instances, k), base, status, env);
    var sh' := UpdateInstance(sh, k, base, status, env).0;
    forall j
      ensures InstanceHistoryOK(sh'.log, j, Hist(sh'.instances, j))
    {
      assert j != k ==> Hist(sh'.instances, j) == Hist(sh.instances, j);
    }
  }

  lemma InventoryWriteKeeps(sh: Shared, k: Key, base: nat, status: InventoryStatus, env: Env)
    requires SharedOK(sh) && LiveAt(Hist(sh.inventories, k), base)
    requires ServiceIds(Hist(sh.inventories, k)[base].obj.status.services) <= ServiceIds(status.services)
    requires ServiceIds(status.services) <= Ids(List(sh.store))
    ensures SharedOK(UpdateInventory(sh, k, base, status, env).0)
  {
    hide InventoryHistoryOK, ConnectionHistoryOK, InstanceHistoryOK, Commit, Pipeline, List;
    InventoryCommitOK(Ids(List(sh.store)), Hist(sh.inventories, k), base, status, env);
    var sh' := UpdateInventory(sh, k, base, status, env).0;
    forall j
      ensures InventoryHistoryOK(Ids(List(sh'.store)), Hist(sh'.inventories, j))
    {
      assert j != k ==> Hist(sh'.inventories, j) == Hist(sh.inventories, j);
    }
  }

  lemma ConnectionWriteKeeps(sh: Shared, k: Key, base: nat, status: ConnectionStatus, env: Env)
    requires SharedOK(sh) && LiveAt(Hist(sh.connections, k), base)
    requires OneOfEach(status.conditions)
    requires IsTrue(status.conditions, CONNECTION_READY) ==>
               Hist(sh.connections, k)[base].obj.spec.databaseServiceID in Ids(List(sh.store))
    ensures SharedOK(UpdateConnection(sh, k, base, status, env).0)
  {
    hide InventoryHistoryOK, ConnectionHistoryOK, InstanceHistoryOK, Commit, Pipeline, List, OneOfEach, IsTrue;
    ConnectionCommitOK(Ids(List(sh.store)), Hist(sh.connections, k), base, status, env);
    var sh' := UpdateConnection(sh, k, base, status, env).0;
    forall j
      ensures ConnectionHistoryOK(Ids(List(sh'.store)), Hist(sh'.connections, j))
    {
      assert j != k ==> Hist(sh'.connections, j) == Hist(sh.connections, j);
    }
  }

  lemma UserKeeps(sh: Shared, u: UserAction)
    requires SharedOK(sh)
    ensures SharedOK(UserStep(sh, u))
  {
    hide InventoryHistoryOK, ConnectionHistoryOK, InstanceHistoryOK, Pipeline, List;
    hide AppliedInstance, AppliedInventory, AppliedConnection, Deleted;
    var sh', ids := UserStep(sh, u), Ids(List(sh.store));
    match u {
      case ApplyInstance(k, spec) => InstanceUserOK(sh.log, k, Hist(sh.instances, k), spec);
      case DeleteInstance(k) => InstanceUserOK(sh.log, k, Hist(sh.instances, k), InstanceSpec(k, map[]));
      case ApplyInventory(k, spec) => InventoryUserOK(ids, Hist(sh.inventories, k), spec);
      case DeleteInventory(k) => InventoryUserOK(ids, Hist(sh.inventories, k), InventorySpec(""));
      case ApplyConnection(k, spec) => ConnectionUserOK(ids, Hist(sh.connections, k), spec);
      case DeleteConnection(k) => ConnectionUserOK(ids, Hist(sh.connections, k), ConnectionSpec(k, ""));
      case _ =>
    }
    forall j
      ensures InstanceHistoryOK(sh'.log, j, Hist(sh'.instances, j))
      ensures InventoryHistoryOK(Ids(List(sh'.store)), Hist(sh'.inventories, j))
      ensures ConnectionHistoryOK(Ids(List(sh'.store)), Hist(sh'.connections, j))
    {
      assert j != u.key ==> Hist(sh'.instances, j) == Hist(sh.instances, j);
      assert j != u.key ==> Hist(sh'.inventories, j) == Hist(sh.inventories, j);
      assert j != u.key ==> Hist(sh'.connections, j) == Hist(sh.connections, j);
    }
  }
}
