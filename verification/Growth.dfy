/** What every step of every run adds to, and none takes back. */
module Growth {
  import opened Types
  import opened ClusterStore
  import opened Api
  import opened Reconcilers
  import opened Operator

  ghost predicate Extends<T(!new)>(a: map<Key, History<T>>, b: map<Key, History<T>>) {
    forall k :: Hist(a, k) <= Hist(b, k)
  }

  /** What readers of the list rely on. */
  ghost predicate StoreGrows(a: Store, b: Store) {
    && Ids(List(a)) <= Ids(List(b))
    && (forall h :: SeesIds(a, h) ==> SeesIds(b, h))
  }

  /** Nothing is forgotten: object versions, accepted creates, listed IDs, and what old headers show. */
  ghost predicate Grows(a: Shared, b: Shared) {
    && Extends(a.instances, b.instances)
    && Extends(a.inventories, b.inventories)
    && Extends(a.connections, b.connections)
    && Extends(a.secrets, b.secrets)
    && Extends(a.configMaps, b.configMaps)
    && a.log <= b.log
    && StoreGrows(a.store, b.store)
  }

  lemma UpdateExtends<T(!new)>(m: map<Key, History<T>>, k: Key, h: History<T>)
    requires Hist(m, k) <= h
    ensures Extends(m, m[k := h])
  {
  }

  lemma StoreStepGrows(s: Store, w: StoreAction)
    requires !Deletes(w)
    ensures StoreGrows(s, StoreStep(s, w))
  {
    IdsGrow(s, w);
    forall h | SeesIds(s, h)
      ensures SeesIds(StoreStep(s, w), h)
    {
      SnapshotKeepsIds(s, w, h);
    }
  }

  lemma SameGrows(sh: Shared)
    ensures Grows(sh, sh)
  {
  }

  lemma InstanceUpdateGrows(sh: Shared, k: Key, base: nat, status: InstanceStatus, env: Env)
    ensures Grows(sh, UpdateInstance(sh, k, base, status, env).0)
  {
    UpdateExtends(sh.instances, k, Hist(UpdateInstance(sh, k, base, status, env).0.instances, k));
  }

  lemma InventoryUpdateGrows(sh: Shared, k: Key, base: nat, status: InventoryStatus, env: Env)
    ensures Grows(sh, UpdateInventory(sh, k, base, status, env).0)
  {
    UpdateExtends(sh.inventories, k, Hist(UpdateInventory(sh, k, base, status, env).0.inventories, k));
  }

  lemma ConnectionUpdateGrows(sh: Shared, k: Key, base: nat, status: ConnectionStatus, env: Env)
    ensures Grows(sh, UpdateConnection(sh, k, base, status, env).0)
  {
    UpdateExtends(sh.connections, k, Hist(UpdateConnection(sh, k, base, status, env).0.connections, k));
  }

  lemma SecretGrows(sh: Shared, k: Key, over: Option<nat>, artefact: Artefact, env: Env)
    ensures Grows(sh, StoreSecret(sh, k, over, artefact, env).0)
  {
    UpdateExtends(sh.secrets, k, Hist(StoreSecret(sh, k, over, artefact, env).0.secrets, k));
  }

  lemma ConfigMapGrows(sh: Shared, k: Key, over: Option<nat>, artefact: Artefact, env: Env)
    ensures Grows(sh, StoreConfigMap(sh, k, over, artefact, env).0)
  {
    UpdateExtends(sh.configMaps, k, Hist(StoreConfigMap(sh, k, over, artefact, env).0.configMaps, k));
  }

  lemma AcceptGrows(sh: Shared, c: Cluster, owner: Key)
    ensures Grows(sh, Accept(sh, c, owner))
  {
    StoreStepGrows(sh.store, AddSend(c));
  }

  lemma WorkerGrows(sh: Shared, w: StoreAction)
    requires !Deletes(w)
    ensures Grows(sh, sh.(store := StoreStep(sh.store, w)))
  {
    StoreStepGrows(sh.store, w);
  }

  lemma ServeGrows(sh: Shared, req: Request, env: Env)
    requires Enabled(sh, req)
    ensures Grows(sh, Serve(sh, req, env).0)
  {
    hide Grows, UpdateInstance, UpdateInventory, UpdateConnection, StoreSecret, StoreConfigMap, Accept;
    match req
    case UpdateInstanceStatus(k, base, status) => InstanceUpdateGrows(sh, k, base, status, env);
    case UpdateInventoryStatus(k, base, status) => InventoryUpdateGrows(sh, k, base, status, env);
    case UpdateConnectionStatus(k, base, status) => ConnectionUpdateGrows(sh, k, base, status, env);
    case PutSecret(k, over, artefact) => SecretGrows(sh, k, over, artefact, env);
    case PutConfigMap(k, over, artefact) => ConfigMapGrows(sh, k, over, artefact, env);
    case SendAdd(c, owner) => AcceptGrows(sh, c, owner);
    case _ => SameGrows(sh);
  }

  lemma UserGrows(sh: Shared, u: UserAction)
    ensures Grows(sh, UserStep(sh, u))
  {
    hide Deleted, AppliedInstance, AppliedInventory, AppliedConnection, Collected, StoreGrows, Extends;
    var after := UserStep(sh, u);
    SameGrows(sh);
    match u
    case ApplyInstance(k, _) => UpdateExtends(sh.instances, k, after.instances[k]);
    case DeleteInstance(k) => UpdateExtends(sh.instances, k, after.instances[k]);
    case ApplyInventory(k, _) => UpdateExtends(sh.inventories, k, after.inventories[k]);
    case DeleteInventory(k) => UpdateExtends(sh.inventories, k, after.inventories[k]);
    case ApplyConnection(k, _) => UpdateExtends(sh.connections, k, after.connections[k]);
    case DeleteConnection(k) => UpdateExtends(sh.connections, k, after.connections[k]);
    case ApplySecret(k, _) => UpdateExtends(sh.secrets, k, after.secrets[k]);
    case DeleteSecret(k) => UpdateExtends(sh.secrets, k, after.secrets[k]);
    case CollectSecret(k) => UpdateExtends(sh.secrets, k, after.secrets[k]);
    case ApplyConfigMap(k, _) => UpdateExtends(sh.configMaps, k, after.configMaps[k]);
    case DeleteConfigMap(k) => UpdateExtends(sh.configMaps, k, after.configMaps[k]);
    case CollectConfigMap(k) => UpdateExtends(sh.configMaps, k, after.configMaps[k]);
  }

  lemma GrowsTransitive(a: Shared, b: Shared, c: Shared)
    requires Grows(a, b) && Grows(b, c)
    ensures Grows(a, c)
  {
  }

  lemma StepGrows(s: State, a: Action)
    requires NoDelete(a)
    ensures Grows(s.sh, Step(s, a).sh)
  {
    hide Grows, Serve, Next, RequestOf, UserStep, StoreGrows;
    match a
    case Spawn(_, _) => SameGrows(s.sh);
    case Thread(t, env) =>
      if Enabled(s.sh, RequestOf(PcOf(s, t))) {
        ServeGrows(s.sh, RequestOf(PcOf(s, t)), env);
      } else {
        SameGrows(s.sh);
      }
    case Worker(w) =>
      if w.AddSend? {
        SameGrows(s.sh);
      } else {
        WorkerGrows(s.sh, w);
      }
    case User(u) => UserGrows(s.sh, u);
  }

  lemma {:induction false} RunGrows(s: State, actions: seq<Action>)
    requires NoDeletes(actions)
    ensures Grows(s.sh, Run(s, actions).sh)
    decreases |actions|
  {
    hide Grows, Step;
    if actions == [] {
      SameGrows(s.sh);
    } else {
      var n := |actions| - 1;
      RunGrows(s, actions[..n]);
      StepGrows(Run(s, actions[..n]), actions[n]);
      GrowsTransitive(s.sh, Run(s, actions[..n]).sh, Run(s, actions).sh);
    }
  }
}
