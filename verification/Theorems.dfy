/**
 The operator's promises, each for every run from the start in which nothing is deleted from the
 store: any interleaving, any stale read, any conflict or failed call.
 */
module Theorems {
  import opened Types
  import opened Conditions
  import opened ClusterStore
  import opened Api
  import opened Operator
  import opened Invariants
  import opened Safety

  /** Versions v to w belong to one life of the object. */
  predicate OneLife<T>(h: History<T>, v: nat, w: nat) {
    v <= w < |h| && forall u :: v <= u <= w ==> h[u].Live?
  }

  /** No reconcile ever reads outside the list, so none panics. */
  lemma NothingPanics(actions: seq<Action>, t: Tid)
    requires NoDeletes(actions)
    ensures !PcOf(Run(INITIAL, actions), t).Panicked?
  {
    hide Run, SharedOK, NoDeletes;
    RunKeeps(actions);
  }

  /** The branch of the instance reconcile that falls through to Ready without an ID is dead. */
  lemma EveryClusterHasAnID(actions: seq<Action>, t: Tid)
    requires NoDeletes(actions)
    ensures var pc := PcOf(Run(INITIAL, actions), t);
            !(pc.InInstance? && pc.atInstance.DetailsErrorStatus?)
  {
    hide Run, SharedOK, NoDeletes;
    RunKeeps(actions);
  }

  /** The store holds exactly the seeds and the accepted creates, in order; the buffer keeps its bound. */
  lemma PipelineIsTheLog(actions: seq<Action>)
    requires NoDeletes(actions)
    ensures var sh := Run(INITIAL, actions).sh;
            Ids(Pipeline(sh.store)) == Ids(SEEDS + Clusters(sh.log)) && |sh.store.addBuf| <= CAPACITY
  {
    hide Run, NoDeletes;
    RunKeeps(actions);
  }

  // ------------------------------------------------------------------ instances

  lemma {:induction false} ChainKeepsID(log: seq<Accepted>, k: Key, h: History<ProviderInstance>, v: nat, w: nat)
    requires InstanceHistoryOK(log, k, h) && OneLife(h, v, w)
    requires h[v].obj.status.instanceID != ""
    ensures h[w].obj.status.instanceID == h[v].obj.status.instanceID
    decreases w
  {
    hide PhaseOK, Made;
    if v == w {
    } else {
      ChainKeepsID(log, k, h, v, w - 1);
      assert InstanceVersionOK(log, k, Previous(h, w), h[w].obj);
    }
  }

  /** An instance's ID is written once and never changes. */
  lemma InstanceIDIsWriteOnce(actions: seq<Action>, k: Key, v: nat, w: nat)
    requires NoDeletes(actions)
    requires OneLife(Hist(Run(INITIAL, actions).sh.instances, k), v, w)
    requires Hist(Run(INITIAL, actions).sh.instances, k)[v].obj.status.instanceID != ""
    ensures var h := Hist(Run(INITIAL, actions).sh.instances, k);
            h[w].obj.status.instanceID == h[v].obj.status.instanceID
  {
    hide InstanceHistoryOK, Run, NoDeletes;
    RunKeeps(actions);
    var sh := Run(INITIAL, actions).sh;
    assert InstanceHistoryOK(sh.log, k, Hist(sh.instances, k));
    ChainKeepsID(sh.log, k, Hist(sh.instances, k), v, w);
  }

  lemma StoredInstanceOK(actions: seq<Action>, k: Key, v: nat)
    requires NoDeletes(actions)
    requires LiveAt(Hist(Run(INITIAL, actions).sh.instances, k), v)
    ensures var sh := Run(INITIAL, actions).sh;
            InstanceVersionOK(sh.log, k, Previous(Hist(sh.instances, k), v), Hist(sh.instances, k)[v].obj)
  {
    hide InstanceVersionOK, Run, NoDeletes;
    RunKeeps(actions);
    var sh := Run(INITIAL, actions).sh;
    assert InstanceHistoryOK(sh.log, k, Hist(sh.instances, k));
  }

  /** In every stored status, Ready comes with an ID and Creating without one. */
  lemma PhasesAreHonest(actions: seq<Action>, k: Key, v: nat)
    requires NoDeletes(actions)
    requires LiveAt(Hist(Run(INITIAL, actions).sh.instances, k), v)
    ensures var status := Hist(Run(INITIAL, actions).sh.instances, k)[v].obj.status;
            && (status.phase.Ready? ==> status.instanceID != "")
            && (status.phase.Creating? ==> status.instanceID == "")
  {
    hide Run, NoDeletes, Made;
    StoredInstanceOK(actions, k, v);
  }

  /** No instance dangles: its cluster is listed, in the worker's hand or in the buffer. */
  lemma NoInstanceDangles(actions: seq<Action>, k: Key, v: nat)
    requires NoDeletes(actions)
    requires LiveAt(Hist(Run(INITIAL, actions).sh.instances, k), v)
    ensures var sh := Run(INITIAL, actions).sh;
            var id := Hist(sh.instances, k)[v].obj.status.instanceID;
            id != "" ==> id in Ids(Pipeline(sh.store))
  {
    hide Run, NoDeletes;
    StoredInstanceOK(actions, k, v);
    PipelineIsTheLog(actions);
    var sh := Run(INITIAL, actions).sh;
    var id := Hist(sh.instances, k)[v].obj.status.instanceID;
    if id != "" {
      MadeIsAccepted(sh, k, id);
    }
  }

  lemma MadeIsAccepted(sh: Shared, k: Key, id: string)
    requires StoreLogged(sh) && Made(sh.log, k, id)
    ensures id in Ids(Pipeline(sh.store))
  {
    var i :| 0 <= i < |sh.log| && sh.log[i].cluster.id == id && sh.log[i].owner == k;
    assert Ids(SEEDS + Clusters(sh.log))[|SEEDS| + i] == id;
  }

  // ---------------------------------------------------------------- inventories

  lemma {:induction false} ChainExtends(ids: seq<string>, h: History<ProviderInventory>, v: nat, w: nat)
    requires InventoryHistoryOK(ids, h) && OneLife(h, v, w)
    ensures ServiceIds(h[v].obj.status.services) <= ServiceIds(h[w].obj.status.services) <= ids
    decreases w
  {
    assert InventoryVersionOK(ids, Previous(h, w), h[w].obj);
    if v == w {
    } else {
      ChainExtends(ids, h, v, w - 1);
    }
  }

  /** An inventory lists a prefix of the store's list, and later versions extend earlier ones. */
  lemma InventoryIsAMonotoneMirror(actions: seq<Action>, k: Key, v: nat, w: nat)
    requires NoDeletes(actions)
    requires OneLife(Hist(Run(INITIAL, actions).sh.inventories, k), v, w)
    ensures var sh := Run(INITIAL, actions).sh;
            var h := Hist(sh.inventories, k);
            ServiceIds(h[v].obj.status.services) <= ServiceIds(h[w].obj.status.services) <= Ids(List(sh.store))
  {
    hide InventoryHistoryOK, Run, NoDeletes;
    RunKeeps(actions);
    var sh := Run(INITIAL, actions).sh;
    assert InventoryHistoryOK(Ids(List(sh.store)), Hist(sh.inventories, k));
    ChainExtends(Ids(List(sh.store)), Hist(sh.inventories, k), v, w);
  }

  // ---------------------------------------------------------------- connections

  lemma StoredConnectionOK(actions: seq<Action>, k: Key, v: nat)
    requires NoDeletes(actions)
    requires LiveAt(Hist(Run(INITIAL, actions).sh.connections, k), v)
    ensures var sh := Run(INITIAL, actions).sh;
            ConnectionVersionOK(Ids(List(sh.store)), Previous(Hist(sh.connections, k), v),
                  Hist(sh.connections, k)[v].obj)
  {
    hide ConnectionVersionOK, Run, NoDeletes;
    RunKeeps(actions);
    var sh := Run(INITIAL, actions).sh;
    assert ConnectionHistoryOK(Ids(List(sh.store)), Hist(sh.connections, k));
  }

  /** A version at which the controller wrote the status. */
  predicate ControllerWrote(h: History<ProviderConnection>, v: nat) {
    0 < v < |h| && h[v].Live? && h[v - 1].Live? && h[v].obj.status != h[v - 1].obj.status
  }

  /** Whenever ReadyForBinding=True is written, the spec names a cluster of the list. */
  lemma BindingIsSafe(actions: seq<Action>, k: Key, v: nat)
    requires NoDeletes(actions)
    requires ControllerWrote(Hist(Run(INITIAL, actions).sh.connections, k), v)
    requires Bound(Hist(Run(INITIAL, actions).sh.connections, k)[v].obj)
    ensures var sh := Run(INITIAL, actions).sh;
            Hist(sh.connections, k)[v].obj.spec.databaseServiceID in Ids(List(sh.store))
  {
    hide Run, NoDeletes, OneOfEach;
    StoredConnectionOK(actions, k, v);
  }

  /** The write that made a stored True true: since then, only the spec can have changed. */
  lemma {:induction false} BindingHasAWrite(actions: seq<Action>, k: Key, v: nat) returns (u: nat)
    requires NoDeletes(actions)
    requires LiveAt(Hist(Run(INITIAL, actions).sh.connections, k), v)
    requires Bound(Hist(Run(INITIAL, actions).sh.connections, k)[v].obj)
    ensures var h := Hist(Run(INITIAL, actions).sh.connections, k);
            && OneLife(h, u, v)
            && ControllerWrote(h, u)
            && (forall x :: u <= x <= v ==> h[x].obj.status == h[v].obj.status)
    decreases v
  {
    hide Run, NoDeletes;
    var h := Hist(Run(INITIAL, actions).sh.connections, k);
    StoredConnectionOK(actions, k, v);
    if ControllerWrote(h, v) {
      u := v;
    } else {
      assert Previous(h, v).Some?;
      u := BindingHasAWrite(actions, k, v - 1);
    }
  }

  /** A stored True is good for as long as users leave the service ID alone. */
  lemma StoredBindingIsSafe(actions: seq<Action>, k: Key, v: nat)
    requires NoDeletes(actions)
    requires LiveAt(Hist(Run(INITIAL, actions).sh.connections, k), v)
    requires Bound(Hist(Run(INITIAL, actions).sh.connections, k)[v].obj)
    ensures var sh := Run(INITIAL, actions).sh;
            var h := Hist(sh.connections, k);
            exists u: nat :: OneLife(h, u, v) && ControllerWrote(h, u)
              && h[u].obj.spec.databaseServiceID in Ids(List(sh.store))
              && (h[v].obj.spec.databaseServiceID == h[u].obj.spec.databaseServiceID ==>
                    h[v].obj.spec.databaseServiceID in Ids(List(sh.store)))
  {
    hide Run, NoDeletes;
    var u := BindingHasAWrite(actions, k, v);
    BindingIsSafe(actions, k, u);
  }

  /**
   The status outlives an edit of the spec. Right after one, a bound connection is still bound, and
   what it names is a cluster of the list exactly when the new ID is one: until the next reconcile a
   stored True says nothing about an edited spec.
   */
  lemma EditKeepsBinding(s: State, k: Key, spec: ConnectionSpec)
    requires var h := Hist(s.sh.connections, k); h != [] && LiveAt(h, |h| - 1) && Bound(h[|h| - 1].obj)
    ensures var sh := Step(s, User(ApplyConnection(k, spec))).sh;
            var h := Hist(sh.connections, k);
            && LiveAt(h, |h| - 1) && Bound(h[|h| - 1].obj)
            && (h[|h| - 1].obj.spec.databaseServiceID in Ids(List(sh.store))
                <==> spec.databaseServiceID in Ids(List(s.sh.store)))
  {
    hide ThreadStep, StoreStep;
  }
}
