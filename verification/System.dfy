/** The whole operator as one transition system: goroutines, store workers and users, interleaved. */
module Operator {
  import opened Types
  import opened ClusterStore
  import opened Api
  import opened Reconcilers

  type Tid = nat

  datatype State = State(sh: Shared, threads: map<Tid, Pc>)

  /**
   What users may do: write or delete an object; they never write a status. The garbage collector's
   deletions of what a deleted connection left behind stand beside them.
   */
  datatype UserAction =
    | ApplyInstance(key: Key, instanceSpec: InstanceSpec)
    | DeleteInstance(key: Key)
    | ApplyInventory(key: Key, inventorySpec: InventorySpec)
    | DeleteInventory(key: Key)
    | ApplyConnection(key: Key, connectionSpec: ConnectionSpec)
    | DeleteConnection(key: Key)
    | ApplySecret(key: Key, artefact: Artefact)
    | DeleteSecret(key: Key)
    | ApplyConfigMap(key: Key, artefact: Artefact)
    | DeleteConfigMap(key: Key)
    | CollectSecret(key: Key)
    | CollectConfigMap(key: Key)

  datatype Action =
    | Spawn(t: Tid, start: Pc)
    | Thread(t: Tid, env: Env)
    | Worker(store: StoreAction)
    | User(user: UserAction)

  const INITIAL := State(Shared(INITIAL_STORE, [], map[], map[], map[], map[], map[]), map[])

  function PcOf(s: State, t: Tid): Pc {
    if t in s.threads then s.threads[t] else Idle
  }

  predicate Resting(pc: Pc) {
    pc.Idle? || pc.Returned?
  }

  predicate Starting(pc: Pc) {
    pc.InstanceStart? || pc.InventoryStart? || pc.ConnectionStart?
  }

  function Deleted<T>(h: History<T>): (after: History<T>)
    ensures h <= after
  {
    if h != [] && h[|h| - 1].Live? then h + [Gone] else h
  }

  /** Some life of the connection is the current one. */
  predicate IsCurrent(h: History<ProviderConnection>, uid: nat) {
    h != [] && h[|h| - 1].Live? && h[|h| - 1].obj.uid == uid
  }

  /** The garbage collector deletes an artefact whose controlling connection is gone, uid and all. */
  function Collected(sh: Shared, namespace: string, h: History<Artefact>): (after: History<Artefact>)
    ensures h <= after
  {
    if h != [] && h[|h| - 1].Live? && h[|h| - 1].obj.controller.ConnectionController?
       && var owner := h[|h| - 1].obj.controller;
          !IsCurrent(Hist(sh.connections, Key(namespace, owner.name)), owner.uid)
    then Deleted(h)
    else h
  }

  function AppliedInstance(h: History<ProviderInstance>, spec: InstanceSpec): (after: History<ProviderInstance>)
    ensures h <= after
  {
    if h != [] && h[|h| - 1].Live? then
      if h[|h| - 1].obj.spec == spec then h else h + [Live(h[|h| - 1].obj.(spec := spec))]
    else h + [Live(ProviderInstance(spec, EMPTY_INSTANCE_STATUS))]
  }

  function AppliedInventory(h: History<ProviderInventory>, spec: InventorySpec): (after: History<ProviderInventory>)
    ensures h <= after
  {
    if h != [] && h[|h| - 1].Live? then
      if h[|h| - 1].obj.spec == spec then h else h + [Live(h[|h| - 1].obj.(spec := spec))]
    else h + [Live(ProviderInventory(spec, EMPTY_INVENTORY_STATUS))]
  }

  function AppliedConnection(h: History<ProviderConnection>, spec: ConnectionSpec): (after: History<ProviderConnection>)
    ensures h <= after
  {
    if h != [] && h[|h| - 1].Live? then
      if h[|h| - 1].obj.spec == spec then h else h + [Live(h[|h| - 1].obj.(spec := spec))]
    else h + [Live(ProviderConnection(|h|, spec, EMPTY_CONNECTION_STATUS))]
  }

  function UserStep(sh: Shared, u: UserAction): Shared {
    match u
    case ApplyInstance(k, spec) =>
      sh.(instances := sh.instances[k := AppliedInstance(Hist(sh.instances, k), spec)])
    case DeleteInstance(k) => sh.(instances := sh.instances[k := Deleted(Hist(sh.instances, k))])
    case ApplyInventory(k, spec) =>
      sh.(inventories := sh.inventories[k := AppliedInventory(Hist(sh.inventories, k), spec)])
    case DeleteInventory(k) => sh.(inventories := sh.inventories[k := Deleted(Hist(sh.inventories, k))])
    case ApplyConnection(k, spec) =>
      sh.(connections := sh.connections[k := AppliedConnection(Hist(sh.connections, k), spec)])
    case DeleteConnection(k) => sh.(connections := sh.connections[k := Deleted(Hist(sh.connections, k))])
    case ApplySecret(k, artefact) => sh.(secrets := sh.secrets[k := Hist(sh.secrets, k) + [Live(artefact)]])
    case DeleteSecret(k) => sh.(secrets := sh.secrets[k := Deleted(Hist(sh.secrets, k))])
    case ApplyConfigMap(k, artefact) =>
      sh.(configMaps := sh.configMaps[k := Hist(sh.configMaps, k) + [Live(artefact)]])
    case DeleteConfigMap(k) => sh.(configMaps := sh.configMaps[k := Deleted(Hist(sh.configMaps, k))])
    case CollectSecret(k) => sh.(secrets := sh.secrets[k := Collected(sh, k.namespace, Hist(sh.secrets, k))])
    case CollectConfigMap(k) => sh.(configMaps := sh.configMaps[k := Collected(sh, k.namespace,
          Hist(sh.configMaps, k))])
  }

  /** A goroutine makes its next call and takes the reply. */
  function ThreadStep(s: State, t: Tid, env: Env): State {
    var pc := PcOf(s, t);
    if Enabled(s.sh, RequestOf(pc)) then
      var (sh, reply) := Serve(s.sh, RequestOf(pc), env);
      State(sh, s.threads[t := Next(pc, reply, env.now)])
    else s
  }

  /** One step; one that is not enabled changes nothing. Only a reconcile sends on addCluster. */
  function Step(s: State, a: Action): State {
    match a
    case Spawn(t, start) =>
      if Resting(PcOf(s, t)) && Starting(start) then s.(threads := s.threads[t := start]) else s
    case Thread(t, env) => ThreadStep(s, t, env)
    case Worker(w) => if w.AddSend? then s else s.(sh := s.sh.(store := StoreStep(s.sh.store, w)))
    case User(u) => s.(sh := UserStep(s.sh, u))
  }

  function Run(s: State, actions: seq<Action>): State
    decreases |actions|
  {
    if actions == [] then s else Step(Run(s, actions[..|actions| - 1]), actions[|actions| - 1])
  }

  /** Nothing is sent on deleteCluster, as in the repository. */
  predicate NoDelete(a: Action) {
    a.Worker? ==> !Deletes(a.store)
  }

  predicate NoDeletes(actions: seq<Action>) {
    forall i :: 0 <= i < |actions| ==> NoDelete(actions[i])
  }

  lemma {:induction false} RunAppends(s: State, first: seq<Action>, second: seq<Action>)
    ensures Run(s, first + second) == Run(Run(s, first), second)
    decreases |second|
  {
    hide Step;
    var both := first + second;
    if second == [] {
      assert both == first;
    } else {
      RunAppends(s, first, second[..|second| - 1]);
      assert both[..|both| - 1] == first + second[..|second| - 1];
    }
  }
}
