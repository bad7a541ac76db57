/** What the API server and the users may do to the controllers: the freedom the theorems hold against. */
module Environment {
  import opened Types
  import opened Api
  import opened ClusterStore
  import opened Reconcilers
  import opened Operator

  /** A read may show any version ever stored, nothing at all, or fail. */
  lemma ReadsAreFree(sh: Shared, k: Key, v: nat, fault: Fault, m: string, now: nat)
    ensures LiveAt(Hist(sh.instances, k), v) ==>
              Serve(sh, GetInstance(k), Env(v, NoFault, m, now))
              == (sh, InstanceRead(v, Hist(sh.instances, k)[v].obj))
    ensures LiveAt(Hist(sh.inventories, k), v) ==>
              Serve(sh, GetInventory(k), Env(v, NoFault, m, now))
              == (sh, InventoryRead(v, Hist(sh.inventories, k)[v].obj))
    ensures LiveAt(Hist(sh.connections, k), v) ==>
              Serve(sh, GetConnection(k), Env(v, NoFault, m, now))
              == (sh, ConnectionRead(v, Hist(sh.connections, k)[v].obj))
    ensures LiveAt(Hist(sh.secrets, k), v) ==>
              Serve(sh, GetSecret(k), Env(v, NoFault, m, now)) == (sh, ArtefactRead(v, Hist(sh.secrets, k)[v].obj))
    ensures LiveAt(Hist(sh.configMaps, k), v) ==>
              Serve(sh, GetConfigMap(k), Env(v, NoFault, m, now))
                    == (sh, ArtefactRead(v, Hist(sh.configMaps, k)[v].obj))
    ensures !LiveAt(Hist(sh.instances, k), v) ==>
          Serve(sh, GetInstance(k), Env(v, NoFault, m, now)) == (sh, NotFound(m))
    ensures !LiveAt(Hist(sh.inventories, k), v) ==>
              Serve(sh, GetInventory(k), Env(v, NoFault, m, now)) == (sh, NotFound(m))
    ensures !LiveAt(Hist(sh.connections, k), v) ==>
              Serve(sh, GetConnection(k), Env(v, NoFault, m, now)) == (sh, NotFound(m))
    ensures !LiveAt(Hist(sh.secrets, k), v) ==> Serve(sh, GetSecret(k), Env(v, NoFault, m, now)) == (sh, NotFound(m))
    ensures !LiveAt(Hist(sh.configMaps, k), v) ==>
              Serve(sh, GetConfigMap(k), Env(v, NoFault, m, now)) == (sh, NotFound(m))
  {
    hide UpdateInstance, UpdateInventory, UpdateConnection, StoreSecret, StoreConfigMap, Accept;
  }

  /** Any read, the opening of the cloud service and the listing may fail. */
  lemma CallsMayFail(sh: Shared, k: Key, v: nat, m: string, now: nat)
    ensures var down := Env(v, Rejected, m, now);
            && Serve(sh, GetInstance(k), down) == (sh, Failed(m)) && Serve(sh, GetInventory(k), down) == (sh, Failed(m))
            && Serve(sh, GetConnection(k), down) == (sh, Failed(m)) && Serve(sh, GetSecret(k), down) == (sh, Failed(m))
            && Serve(sh, GetConfigMap(k), down) == (sh, Failed(m))
            && Serve(sh, OpenCloudService, down) == (sh, Failed(m)) && Serve(sh, ListClusters, down) == (sh, Failed(m))
  {
    hide UpdateInstance, UpdateInventory, UpdateConnection, StoreSecret, StoreConfigMap, Accept;
  }

  /** A write over a version: refused, too late, overtaken, or stored, with its reply lost or not. */
  lemma CommitSays<T>(h: History<T>, base: nat, obj: T, env: Env)
    ensures var (after, reply) := Commit(h, base, obj, env);
            && (env.fault.Rejected? ==> after == h && reply == Failed(env.message))
            && (!env.fault.Rejected? && !NotDeleted(h) ==> after == h && reply == NotFound(env.message))
            && (!env.fault.Rejected? && NotDeleted(h) && base != |h| - 1 ==> after == h && reply == Conflict)
            && (!env.fault.Rejected? && NotDeleted(h) && base == |h| - 1 ==>
                  && IsNewest(after, obj) && (IsNewest(h, obj) ==> after == h)
                  && (!IsNewest(h, obj) ==> after == h + [Live(obj)])
                  && (env.fault.NoFault? ==> reply == Written(|after| - 1))
                  && (env.fault.ReplyLost? ==> reply == Failed(env.message)))
  {
  }

  /** A create: only where nothing is, and again with its reply lost or not. */
  lemma CreateSays<T>(h: History<T>, obj: T, env: Env)
    ensures var (after, reply) := Create(h, obj, env);
            && (env.fault.Rejected? || NotDeleted(h) ==> after == h && reply == Failed(env.message))
            && (!env.fault.Rejected? && !NotDeleted(h) ==>
                  && after == h + [Live(obj)]
                  && reply == if env.fault.ReplyLost? then Failed(env.message) else Written(|h|))
  {
  }

  /** An apply of the same spec is no event; of another, it keeps the status; after a deletion, it starts anew. */
  lemma AppliesSay(
    instances: History<ProviderInstance>, inventories: History<ProviderInventory>,
    connections: History<ProviderConnection>, i: InstanceSpec, v: InventorySpec, c: ConnectionSpec)
    ensures NotDeleted(instances) ==>
              var last := instances[|instances| - 1].obj;
              AppliedInstance(instances, i)
              == if last.spec == i then instances else instances + [Live(ProviderInstance(i, last.status))]
    ensures !NotDeleted(instances) ==>
              AppliedInstance(instances, i)
              == instances + [Live(ProviderInstance(i, InstanceStatus(PhaseUnset, "", map[], [])))]
    ensures NotDeleted(inventories) ==>
              var last := inventories[|inventories| - 1].obj;
              AppliedInventory(inventories, v)
              == if last.spec == v then inventories else inventories + [Live(ProviderInventory(v, last.status))]
    ensures !NotDeleted(inventories) ==>
              AppliedInventory(inventories, v) == inventories + [Live(ProviderInventory(v, InventoryStatus([], [])))]
    ensures NotDeleted(connections) ==>
              var last := connections[|connections| - 1].obj;
              AppliedConnection(connections, c)
              == if last.spec == c then connections
                 else connections + [Live(ProviderConnection(last.uid, c, last.status))]
    ensures !NotDeleted(connections) ==>
              AppliedConnection(connections, c)
              == connections + [Live(ProviderConnection(|connections|, c, ConnectionStatus(None, None, [])))]
  {
  }

  lemma DeletionSays<T>(h: History<T>)
    ensures Deleted(h) == if NotDeleted(h) then h + [Gone] else h
  {
  }

  /** The collector takes an artefact exactly if it is controlled by a connection that is gone, by uid. */
  lemma CollectionSays(sh: Shared, namespace: string, h: History<Artefact>)
    ensures Collected(sh, namespace, h) == h + [Gone] <==>
              && NotDeleted(h) && h[|h| - 1].obj.controller.ConnectionController?
              && var owner := h[|h| - 1].obj.controller;
                 var owners := Hist(sh.connections, Key(namespace, owner.name));
                 !NotDeleted(owners) || owners[|owners| - 1].obj.uid != owner.uid
    ensures Collected(sh, namespace, h) == h || Collected(sh, namespace, h) == h + [Gone]
  {
  }

  /** The histories but for one, which is now h. */
  ghost predicate OneChanged<T(!new)>(
    before: map<Key, History<T>>, after: map<Key, History<T>>, k: Key, h: History<T>) {
    Hist(after, k) == h && forall other: Key :: other != k ==> Hist(after, other) == Hist(before, other)
  }

  /** Users and the collector act on the one history they name, and on nothing else. */
  lemma ObjectEditsSay(sh: Shared, k: Key, i: InstanceSpec, v: InventorySpec, c: ConnectionSpec)
    ensures var after := UserStep(sh, ApplyInstance(k, i));
            && after == sh.(instances := after.instances)
            && OneChanged(sh.instances, after.instances, k, AppliedInstance(Hist(sh.instances, k), i))
    ensures var after := UserStep(sh, DeleteInstance(k));
            && after == sh.(instances := after.instances)
            && OneChanged(sh.instances, after.instances, k, Deleted(Hist(sh.instances, k)))
    ensures var after := UserStep(sh, ApplyInventory(k, v));
            && after == sh.(inventories := after.inventories)
            && OneChanged(sh.inventories, after.inventories, k, AppliedInventory(Hist(sh.inventories, k), v))
    ensures var after := UserStep(sh, DeleteInventory(k));
            && after == sh.(inventories := after.inventories)
            && OneChanged(sh.inventories, after.inventories, k, Deleted(Hist(sh.inventories, k)))
    ensures var after := UserStep(sh, ApplyConnection(k, c));
            && after == sh.(connections := after.connections)
            && OneChanged(sh.connections, after.connections, k, AppliedConnection(Hist(sh.connections, k), c))
    ensures var after := UserStep(sh, DeleteConnection(k));
            && after == sh.(connections := after.connections)
            && OneChanged(sh.connections, after.connections, k, Deleted(Hist(sh.connections, k)))
  {
    hide AppliedInstance, AppliedInventory, AppliedConnection, Deleted;
  }

  lemma ArtefactEditsSay(sh: Shared, k: Key, a: Artefact)
    ensures var after := UserStep(sh, ApplySecret(k, a));
            && after == sh.(secrets := after.secrets)
            && OneChanged(sh.secrets, after.secrets, k, Hist(sh.secrets, k) + [Live(a)])
    ensures var after := UserStep(sh, DeleteSecret(k));
            && after == sh.(secrets := after.secrets)
            && OneChanged(sh.secrets, after.secrets, k, Deleted(Hist(sh.secrets, k)))
    ensures var after := UserStep(sh, ApplyConfigMap(k, a));
            && after == sh.(configMaps := after.configMaps)
            && OneChanged(sh.configMaps, after.configMaps, k, Hist(sh.configMaps, k) + [Live(a)])
    ensures var after := UserStep(sh, DeleteConfigMap(k));
            && after == sh.(configMaps := after.configMaps)
            && OneChanged(sh.configMaps, after.configMaps, k, Deleted(Hist(sh.configMaps, k)))
  {
    hide Deleted;
  }

  lemma CollectorSays(sh: Shared, k: Key)
    ensures var after := UserStep(sh, CollectSecret(k));
            && after == sh.(secrets := after.secrets)
            && OneChanged(sh.secrets, after.secrets, k, Collected(sh, k.namespace, Hist(sh.secrets, k)))
    ensures var after := UserStep(sh, CollectConfigMap(k));
            && after == sh.(configMaps := after.configMaps)
            && OneChanged(sh.configMaps, after.configMaps, k, Collected(sh, k.namespace, Hist(sh.configMaps, k)))
  {
    hide Collected;
  }

  /** A status write commits the status, and nothing but the status, over the version that was read. */
  lemma StatusWritesSay(
    sh: Shared, k: Key, base: nat, i: InstanceStatus, v: InventoryStatus, c: ConnectionStatus, env: Env)
    ensures LiveAt(Hist(sh.instances, k), base) ==>
              var h := Hist(sh.instances, k);
              var (after, reply) := Serve(sh, UpdateInstanceStatus(k, base, i), env);
              var (stored, answer) := Commit(h, base, ProviderInstance(h[base].obj.spec, i), env);
              && after == sh.(instances := after.instances) && reply == answer
              && OneChanged(sh.instances, after.instances, k, stored)
    ensures LiveAt(Hist(sh.inventories, k), base) ==>
              var h := Hist(sh.inventories, k);
              var (after, reply) := Serve(sh, UpdateInventoryStatus(k, base, v), env);
              var (stored, answer) := Commit(h, base, ProviderInventory(h[base].obj.spec, v), env);
              && after == sh.(inventories := after.inventories) && reply == answer
              && OneChanged(sh.inventories, after.inventories, k, stored)
    ensures LiveAt(Hist(sh.connections, k), base) ==>
              var h := Hist(sh.connections, k);
              var (after, reply) := Serve(sh, UpdateConnectionStatus(k, base, c), env);
              var (stored, answer) := Commit(h, base, ProviderConnection(h[base].obj.uid, h[base].obj.spec, c), env);
              && after == sh.(connections := after.connections) && reply == answer
              && OneChanged(sh.connections, after.connections, k, stored)
  {
    hide Commit;
  }

  /** A put is a create, or a commit over the version that was read. */
  lemma PutsSay(sh: Shared, k: Key, base: nat, a: Artefact, env: Env)
    ensures var (after, reply) := Serve(sh, PutSecret(k, None, a), env);
            var (stored, answer) := Create(Hist(sh.secrets, k), a, env);
            && after == sh.(secrets := after.secrets) && reply == answer
            && OneChanged(sh.secrets, after.secrets, k, stored)
    ensures var (after, reply) := Serve(sh, PutSecret(k, Some(base), a), env);
            var (stored, answer) := Commit(Hist(sh.secrets, k), base, a, env);
            && after == sh.(secrets := after.secrets) && reply == answer
            && OneChanged(sh.secrets, after.secrets, k, stored)
    ensures var (after, reply) := Serve(sh, PutConfigMap(k, None, a), env);
            var (stored, answer) := Create(Hist(sh.configMaps, k), a, env);
            && after == sh.(configMaps := after.configMaps) && reply == answer
            && OneChanged(sh.configMaps, after.configMaps, k, stored)
    ensures var (after, reply) := Serve(sh, PutConfigMap(k, Some(base), a), env);
            var (stored, answer) := Commit(Hist(sh.configMaps, k), base, a, env);
            && after == sh.(configMaps := after.configMaps) && reply == answer
            && OneChanged(sh.configMaps, after.configMaps, k, stored)
  {
    hide Commit, Create;
  }

  /** Reads of the store: a header, a length, an element through either; and the one send, with its log. */
  lemma StoreCallsSay(sh: Shared, h: Slice, i: nat, c: Cluster, owner: Key, env: Env)
    ensures Serve(sh, ReadHeader, env) == (sh, Header(sh.store.hdr))
    ensures Serve(sh, ReadLength, env) == (sh, Length(|List(sh.store)|))
    ensures i < |List(sh.store)| ==> Serve(sh, ReadShared(i), env) == (sh, Element(List(sh.store)[i]))
    ensures i >= |List(sh.store)| ==> Serve(sh, ReadShared(i), env) == (sh, OutOfRange)
    ensures h.arr < |sh.store.mem| && i < |sh.store.mem[h.arr]| ==>
              Serve(sh, ReadSnapshot(h, i), env) == (sh, Element(sh.store.mem[h.arr][i]))
    ensures |sh.store.addBuf| >= 5 <==> !Enabled(sh, Request.SendAdd(c, owner))
    ensures |sh.store.addBuf| < 5 ==>
              var (after, reply) := Serve(sh, Request.SendAdd(c, owner), env);
              && reply == Done && after == sh.(store := after.store, log := sh.log + [Accepted(c, owner)])
              && after.store == sh.store.(addBuf := sh.store.addBuf + [c])
  {
    hide UpdateInstance, UpdateInventory, UpdateConnection, StoreSecret, StoreConfigMap;
  }

  /** One step of one goroutine, one worker or one user; every other goroutine stays where it is. */
  lemma StepsSay(s: State, t: Tid, other: Tid, start: Pc, env: Env, w: StoreAction, u: UserAction)
    requires other != t
    ensures var after := Step(s, Spawn(t, start));
            && after.sh == s.sh && PcOf(after, other) == PcOf(s, other)
            && PcOf(after, t) == if Resting(PcOf(s, t)) && Starting(start) then start else PcOf(s, t)
    ensures Enabled(s.sh, RequestOf(PcOf(s, t))) ==>
              var (sh, reply) := Serve(s.sh, RequestOf(PcOf(s, t)), env);
              var after := Step(s, Thread(t, env));
              && after.sh == sh && PcOf(after, other) == PcOf(s, other)
              && PcOf(after, t) == Next(PcOf(s, t), reply, env.now)
    ensures !Enabled(s.sh, RequestOf(PcOf(s, t))) ==> Step(s, Thread(t, env)) == s
    ensures var after := Step(s, Worker(w));
            && after.threads == s.threads && after.sh == s.sh.(store := after.sh.store)
            && after.sh.store == if w.AddSend? then s.sh.store else StoreStep(s.sh.store, w)
    ensures Step(s, User(u)) == State(UserStep(s.sh, u), s.threads)
    ensures Resting(PcOf(s, t)) <==> PcOf(s, t).Idle? || PcOf(s, t).Returned?
  {
    hide Serve, Next, RequestOf, StoreStep, UserStep, Enabled;
  }
}
