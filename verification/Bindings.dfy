/** A binding from beginning to end, and what an edit makes of it. */
module Bindings {
  import opened Types
  import opened Conditions
  import opened ClusterStore
  import InstanceInfo
  import opened Api
  import opened Reconcilers
  import opened Operator
  import opened Invariants
  import opened Discovery
  import opened Theorems
  import opened Existence
  import opened Quiescence
  import opened Walks

  // ------------------------------------------------------------------ inventories

  /** What an undisturbed reconcile makes of an inventory. */
  function SyncedWith(o: ProviderInventory, list: seq<Cluster>): ProviderInventory {
    WithSynced(o.(status := o.status.(services := Image(list))), ConditionTrue, SYNC_OK, 0)
  }

  lemma ReadsInventory(s: State, t: Tid, k: Key, v: nat)
    requires PcOf(s, t) == InventoryStart(k) && LiveAt(Hist(s.sh.inventories, k), v)
    ensures Step(s, Thread(t, Fine(v)))
         == With(s, t, InInventory(k, v, Hist(s.sh.inventories, k)[v].obj, OpenInventoryCloud))
  {
    hide InstanceNext, InventoryNext, ConnectionNext, StoreStep;
  }

  lemma InventoryOpens(s: State, t: Tid, k: Key, v: nat, o: ProviderInventory, at: InventoryAt)
    requires PcOf(s, t) == InInventory(k, v, o, at)
    ensures at.OpenInventoryCloud? ==> Step(s, Thread(t, Fine(0))) == With(s, t, InInventory(k, v, o, DiscoverList))
    ensures at.DiscoverList? ==> Step(s, Thread(t, Fine(0))) == With(s, t, InInventory(k, v, o, DiscoverLength))
    ensures at.DiscoverLength? ==>
              Step(s, Thread(t, Fine(0))) == With(s, t, InInventory(k, v, o, DiscoverScan(|List(s.sh.store)|, [])))
  {
    hide InstanceNext, ConnectionNext, StoreStep, WithSynced;
  }

  lemma InventoryScans(s: State, t: Tid, k: Key, v: nat, o: ProviderInventory, n: nat, found: seq<DatabaseService>)
    requires PcOf(s, t) == InInventory(k, v, o, DiscoverScan(n, found)) && n == |List(s.sh.store)|
    ensures |found| < n ==>
              Step(s, Thread(t, Fine(0)))
              == With(s, t, InInventory(k, v, o, DiscoverScan(n, found + [ServiceOf(List(s.sh.store)[|found|])])))
    ensures |found| >= n ==>
              Step(s, Thread(t, Fine(0)))
              == With(s, t, InInventory(k, v,
                    WithSynced(o.(status := o.status.(services := found)), ConditionTrue, SYNC_OK, 0),
                                        SyncStatus(None)))
  {
    hide InstanceNext, ConnectionNext, StoreStep, WithSynced, ServiceOf;
  }

  lemma {:induction false} DiscoversAll(s: State, t: Tid, k: Key, v: nat, o: ProviderInventory, m: nat, c: Key)
    requires m <= |List(s.sh.store)|
    ensures var list := List(s.sh.store);
            Leads(With(s, t, InInventory(k, v, o, DiscoverScan(|list|, []))),
                  With(s, t, InInventory(k, v, o, DiscoverScan(|list|, Image(list[..m])))), c, 0)
  {
    hide Leads, Step, List, ServiceOf;
    var list := List(s.sh.store);
    var first := InInventory(k, v, o, DiscoverScan(|list|, []));
    if m == 0 {
      assert Image(list[..0]) == [];
      LeadsNowhere(With(s, t, first), c);
    } else {
      var before := InInventory(k, v, o, DiscoverScan(|list|, Image(list[..m - 1])));
      var after := InInventory(k, v, o, DiscoverScan(|list|, Image(list[..m])));
      DiscoversAll(s, t, k, v, o, m - 1, c);
      WithTwice(s, t, before, after);
      InventoryScans(With(s, t, before), t, k, v, o, |list|, Image(list[..m - 1]));
      assert Image(list[..m]) == Image(list[..m - 1]) + [ServiceOf(list[m - 1])];
      Moves(s, t, before, after, 0, c);
      LeadsOn(With(s, t, first), With(s, t, before), With(s, t, after), c, 0, 0);
    }
  }

  lemma InventoryWrites(s: State, t: Tid, k: Key, v: nat, o: ProviderInventory)
    requires PcOf(s, t) == InInventory(k, v, o, SyncStatus(None))
    requires var h := Hist(s.sh.inventories, k); LiveAt(h, v) && v == |h| - 1 && h[v].obj.spec == o.spec
    ensures var after := Step(s, Thread(t, Fine(0)));
            && after.sh == s.sh.(inventories := after.sh.inventories)
            && after.threads == s.threads[t := Returned(Ok)]
            && IsNewest(Hist(after.sh.inventories, k), o)
  {
    hide InstanceNext, ConnectionNext, StoreStep, WithSynced;
    assert Hist(s.sh.inventories, k)[v].obj.(status := o.status) == o;
  }

  lemma ReachesScan(s: State, t: Tid, k: Key, v: nat, c: Key)
    requires Resting(PcOf(s, t)) && LiveAt(Hist(s.sh.inventories, k), v)
    ensures Leads(s, With(s, t,
          InInventory(k, v, Hist(s.sh.inventories, k)[v].obj, DiscoverScan(|List(s.sh.store)|, []))), c, 1)
  {
    hide Leads, Step, List, WithSynced, Calm;
    var o, n := Hist(s.sh.inventories, k)[v].obj, |List(s.sh.store)|;
    var start, open := InventoryStart(k), InInventory(k, v, o, OpenInventoryCloud);
    var ask, measure := InInventory(k, v, o, DiscoverList), InInventory(k, v, o, DiscoverLength);
    var scan := InInventory(k, v, o, DiscoverScan(n, []));
    StartsLead(s, t, start, c);
    WithTwice(s, t, start, open);
    ReadsInventory(With(s, t, start), t, k, v);
    Moves(s, t, start, open, v, c);
    WithTwice(s, t, open, ask);
    InventoryOpens(With(s, t, open), t, k, v, o, OpenInventoryCloud);
    Moves(s, t, open, ask, 0, c);
    WithTwice(s, t, ask, measure);
    InventoryOpens(With(s, t, ask), t, k, v, o, DiscoverList);
    Moves(s, t, ask, measure, 0, c);
    WithTwice(s, t, measure, scan);
    InventoryOpens(With(s, t, measure), t, k, v, o, DiscoverLength);
    Moves(s, t, measure, scan, 0, c);
    LeadsOn(s, With(s, t, start), With(s, t, open), c, 1, 0);
    LeadsOn(s, With(s, t, open), With(s, t, ask), c, 1, 0);
    LeadsOn(s, With(s, t, ask), With(s, t, measure), c, 1, 0);
    LeadsOn(s, With(s, t, measure), With(s, t, scan), c, 1, 0);
  }

  /** A discovery that nobody disturbs lists the store. */
  lemma Synchronizes(s: State, t: Tid, k: Key, v: nat, c: Key) returns (after: State)
    requires Resting(PcOf(s, t))
    requires LiveAt(Hist(s.sh.inventories, k), v) && v == |Hist(s.sh.inventories, k)| - 1
    ensures Leads(s, after, c, 1)
    ensures after.sh == s.sh.(inventories := after.sh.inventories) && after.threads == s.threads[t := Returned(Ok)]
    ensures IsNewest(Hist(after.sh.inventories, k), SyncedWith(Hist(s.sh.inventories, k)[v].obj, List(s.sh.store)))
  {
    hide Leads, Step, List, WithSynced, IsNewest, Image, Calm;
    var o, list := Hist(s.sh.inventories, k)[v].obj, List(s.sh.store);
    var scan := InInventory(k, v, o, DiscoverScan(|list|, []));
    var full := InInventory(k, v, o, DiscoverScan(|list|, Image(list)));
    var sync := InInventory(k, v, SyncedWith(o, list), SyncStatus(None));
    ReachesScan(s, t, k, v, c);
    DiscoversAll(s, t, k, v, o, |list|, c);
    assert list[..|list|] == list;
    WithTwice(s, t, full, sync);
    InventoryScans(With(s, t, full), t, k, v, o, |list|, Image(list));
    Moves(s, t, full, sync, 0, c);
    LeadsOn(s, With(s, t, scan), With(s, t, full), c, 1, 0);
    LeadsOn(s, With(s, t, full), With(s, t, sync), c, 1, 0);
    SyncedSpec(o, list);
    InventoryWrites(With(s, t, sync), t, k, v, SyncedWith(o, list));
    FineIsCalm(With(s, t, sync), t, 0, c);
    after := Step(With(s, t, sync), Thread(t, Fine(0)));
    LeadsOnByStep(s, With(s, t, sync), Thread(t, Fine(0)), after, c, 1);
  }

  lemma SyncedSpec(o: ProviderInventory, list: seq<Cluster>)
    ensures SyncedWith(o, list).spec == o.spec
  {
  }

  // ------------------------------------------------------------------ connections

  lemma ReadsConnection(s: State, t: Tid, k: Key, v: nat)
    requires PcOf(s, t) == ConnectionStart(k) && LiveAt(Hist(s.sh.connections, k), v)
    ensures Step(s, Thread(t, Fine(v)))
         == With(s, t, InConnection(k, v, Hist(s.sh.connections, k)[v].obj, ServiceInventory))
  {
    hide InstanceNext, InventoryNext, ConnectionNext, StoreStep;
  }

  /** The inventory, as the connection may read it, lists what the connection asks for. */
  predicate Offers(sh: Shared, iv: nat, o: ProviderConnection, service: DatabaseService) {
    && LiveAt(Hist(sh.inventories, o.spec.inventoryRef), iv)
    && ClusterInstance(Hist(sh.inventories, o.spec.inventoryRef)[iv].obj, o.spec.databaseServiceID)
          == FoundService(service)
  }

  lemma FindsService(s: State, t: Tid, k: Key, v: nat, o: ProviderConnection, iv: nat, service: DatabaseService)
    requires PcOf(s, t) == InConnection(k, v, o, ServiceInventory) && Offers(s.sh, iv, o, service)
    ensures Step(s, Thread(t, Fine(iv))) == With(s, t, InConnection(k, v, o, OpenConnectionCloud(service)))
  {
    hide InstanceNext, InventoryNext, StoreStep, FailConnection, HaveConfigMap, SecretRead, ConfigMapRead;
  }

  lemma OpensForConnection(s: State, t: Tid, k: Key, v: nat, o: ProviderConnection, service: DatabaseService)
    requires PcOf(s, t) == InConnection(k, v, o, OpenConnectionCloud(service))
    ensures Step(s, Thread(t, Fine(0))) == With(s, t, InConnection(k, v, o, SecretGet(service)))
  {
    hide InstanceNext, InventoryNext, StoreStep, FailConnection, HaveConfigMap, SecretRead, ConfigMapRead;
  }

  /** A connection reconcile up to its look at the Secret. */
  lemma ReachesSecret(s: State, t: Tid, k: Key, v: nat, iv: nat, service: DatabaseService, c: Key)
    requires Resting(PcOf(s, t)) && LiveAt(Hist(s.sh.connections, k), v)
    requires Offers(s.sh, iv, Hist(s.sh.connections, k)[v].obj, service)
    ensures Leads(s, With(s, t, InConnection(k, v, Hist(s.sh.connections, k)[v].obj, SecretGet(service))), c, 1)
  {
    hide Leads, Step, ClusterInstance;
    var o := Hist(s.sh.connections, k)[v].obj;
    var start, find := ConnectionStart(k), InConnection(k, v, o, ServiceInventory);
    var open, look := InConnection(k, v, o, OpenConnectionCloud(service)), InConnection(k, v, o, SecretGet(service));
    StartsLead(s, t, start, c);
    WithTwice(s, t, start, find);
    ReadsConnection(With(s, t, start), t, k, v);
    Moves(s, t, start, find, v, c);
    WithTwice(s, t, find, open);
    FindsService(With(s, t, find), t, k, v, o, iv, service);
    Moves(s, t, find, open, iv, c);
    WithTwice(s, t, open, look);
    OpensForConnection(With(s, t, open), t, k, v, o, service);
    Moves(s, t, open, look, 0, c);
    LeadsOn(s, With(s, t, start), With(s, t, find), c, 1, 0);
    LeadsOn(s, With(s, t, find), With(s, t, open), c, 1, 0);
    LeadsOn(s, With(s, t, open), With(s, t, look), c, 1, 0);
  }

  /** A look that finds nothing, however much there is, and a put that then creates. */
  lemma MissesArtefact(s: State, t: Tid, k: Key, v: nat, o: ProviderConnection, service: DatabaseService, version: nat)
    ensures (PcOf(s, t) == InConnection(k, v, o, SecretGet(service))
             && !LiveAt(Hist(s.sh.secrets, SecretKey(k)), version)) ==>
              Step(s, Thread(t, Fine(version)))
              == With(s, t, InConnection(k, v, o, SecretPut(service, None, Owned(k, o.uid, SecretData()))))
    ensures (PcOf(s, t) == InConnection(k, v, o, ConfigMapGet(service))
             && !LiveAt(Hist(s.sh.configMaps, ConfigMapKey(k)), version)) ==>
              Step(s, Thread(t, Fine(version)))
              == With(s, t, InConnection(k, v, o, ConfigMapPut(None, Owned(k, o.uid, ConfigMapData()))))
  {
    hide InstanceNext, InventoryNext, StoreStep, FailConnection, HaveConfigMap, SecretKey, ConfigMapKey,
      ClusterInstance;
  }

  lemma CreatesSecret(s: State, t: Tid, k: Key, v: nat, o: ProviderConnection, service: DatabaseService, a: Artefact)
    requires PcOf(s, t) == InConnection(k, v, o, SecretPut(service, None, a))
    requires !NotDeleted(Hist(s.sh.secrets, SecretKey(k)))
    ensures Step(s, Thread(t, Fine(0)))
         == State(s.sh.(secrets := s.sh.secrets[SecretKey(k) := Hist(s.sh.secrets, SecretKey(k)) + [Live(a)]]),
                  s.threads[t := InConnection(k, v, o, ConfigMapGet(service))])
  {
    hide InstanceNext, InventoryNext, StoreStep, FailConnection, HaveConfigMap, SecretKey, ConfigMapKey,
      ClusterInstance, SecretRead, ConfigMapRead;
  }

  lemma CreatesConfigMap(s: State, t: Tid, k: Key, v: nat, o: ProviderConnection, a: Artefact)
    requires PcOf(s, t) == InConnection(k, v, o, ConfigMapPut(None, a))
    requires !NotDeleted(Hist(s.sh.configMaps, ConfigMapKey(k)))
    ensures Step(s, Thread(t, Fine(0)))
         == State(s.sh.(configMaps := s.sh.configMaps[ConfigMapKey(k) := Hist(s.sh.configMaps,
               ConfigMapKey(k)) + [Live(a)]]),
                  s.threads[t := HaveConfigMap(k, v, o, 0)])
  {
    hide InstanceNext, InventoryNext, StoreStep, FailConnection, HaveConfigMap, SecretKey, ConfigMapKey,
      ClusterInstance, SecretRead, ConfigMapRead;
  }

  lemma BindsLatest(s: State, t: Tid, k: Key, v: nat, o: ProviderConnection)
    requires PcOf(s, t) == InConnection(k, v, o, BindStatus(None))
    requires var h := Hist(s.sh.connections, k);
             LiveAt(h, v) && v == |h| - 1 && o.(status := h[v].obj.status) == h[v].obj && o != h[v].obj
    ensures Step(s, Thread(t, Fine(0)))
         == State(s.sh.(connections := s.sh.connections[k := Hist(s.sh.connections, k) + [Live(o)]]),
                  s.threads[t := Returned(Ok)])
  {
    hide InstanceNext, InventoryNext, StoreStep, FailConnection, HaveConfigMap, SecretKey, ConfigMapKey,
      ClusterInstance, SecretRead, ConfigMapRead;
    assert Hist(s.sh.connections, k)[v].obj.(status := o.status) == o;
  }

  /** What an undisturbed reconcile makes of a connection. */
  function BoundBy(k: Key, o: ProviderConnection): ProviderConnection {
    WithBinding(o.(status := o.status.(credentialsRef := Some(SecretKey(k).name),
          connectionInfoRef := Some(ConfigMapKey(k).name))),
                ConditionTrue, READY, SUCCESS_CONNECTION, 0)
  }

  lemma BoundByIsBound(k: Key, o: ProviderConnection)
    requires o.status == EMPTY_CONNECTION_STATUS
    ensures Bound(BoundBy(k, o)) && BoundBy(k, o) != o && BoundBy(k, o).(status := o.status) == o
    ensures BoundBy(k, o).spec == o.spec && BoundBy(k, o).uid == o.uid
  {
    hide SetStatusCondition, IsTrue;
    SetDecides([], CONNECTION_READY, ConditionTrue, READY, SUCCESS_CONNECTION, 0, CONNECTION_READY);
    assert OneOfEach([]);
  }

  /** A reconcile of a new connection that nobody disturbs creates both artefacts and binds. */
  lemma Binds(s: State, t: Tid, k: Key, v: nat, iv: nat, service: DatabaseService, c: Key) returns (after: State)
    requires Resting(PcOf(s, t)) && LiveAt(Hist(s.sh.connections, k), v) && v == |Hist(s.sh.connections, k)| - 1
    requires Offers(s.sh, iv, Hist(s.sh.connections, k)[v].obj, service)
    requires Hist(s.sh.connections, k)[v].obj.status == EMPTY_CONNECTION_STATUS
    requires !NotDeleted(Hist(s.sh.secrets, SecretKey(k))) && !NotDeleted(Hist(s.sh.configMaps, ConfigMapKey(k)))
    ensures Leads(s, after, c, 1)
    ensures var o := Hist(s.sh.connections, k)[v].obj;
            && Hist(after.sh.connections, k) == Hist(s.sh.connections, k) + [Live(BoundBy(k, o))]
            && Hist(after.sh.secrets, SecretKey(k))
               == Hist(s.sh.secrets, SecretKey(k)) + [Live(Owned(k, o.uid, SecretData()))]
            && Hist(after.sh.configMaps, ConfigMapKey(k))
               == Hist(s.sh.configMaps, ConfigMapKey(k)) + [Live(Owned(k, o.uid, ConfigMapData()))]
            && after.sh.inventories == s.sh.inventories && after.sh.store == s.sh.store
    ensures after.threads == s.threads[t := Returned(Ok)]
  {
    hide Leads, Step, ClusterInstance, Owned, SecretKey, ConfigMapKey, SecretData, ConfigMapData, WithBinding, Calm;
    var o := Hist(s.sh.connections, k)[v].obj;
    var n, m := |Hist(s.sh.secrets, SecretKey(k))|, |Hist(s.sh.configMaps, ConfigMapKey(k))|;
    var secret, configMap := Owned(k, o.uid, SecretData()), Owned(k, o.uid, ConfigMapData());
    var look := InConnection(k, v, o, SecretGet(service));
    var put := InConnection(k, v, o, SecretPut(service, None, secret));
    ReachesSecret(s, t, k, v, iv, service, c);
    WithTwice(s, t, look, put);
    MissesArtefact(With(s, t, look), t, k, v, o, service, n);
    Moves(s, t, look, put, n, c);
    LeadsOn(s, With(s, t, look), With(s, t, put), c, 1, 0);
    CreatesSecret(With(s, t, put), t, k, v, o, service, secret);
    var one := GoesOn(s, With(s, t, put), t, 0, c);
    MissesArtefact(one, t, k, v, o, service, m);
    var two := GoesOn(s, one, t, m, c);
    CreatesConfigMap(two, t, k, v, o, configMap);
    var three := GoesOn(s, two, t, 0, c);
    BoundByIsBound(k, o);
    BindsLatest(three, t, k, v, BoundBy(k, o));
    after := GoesOn(s, three, t, 0, c);
  }

  lemma GoesOn(s: State, here: State, t: Tid, version: nat, c: Key) returns (after: State)
    requires Leads(s, here, c, 1) && PcOf(here, t).InConnection?
    ensures after == Step(here, Thread(t, Fine(version))) && Leads(s, after, c, 1)
  {
    hide Leads, Step;
    FineIsCalm(here, t, version, c);
    after := Step(here, Thread(t, Fine(version)));
    LeadsOnByStep(s, here, Thread(t, Fine(version)), after, c, 1);
  }

  // -------------------------------------------------------------- from the start

  function SeedSpec(i: Key): ConnectionSpec {
    ConnectionSpec(i, SEEDS[0].id)
  }

  function NewConnection(uid: nat, i: Key): ProviderConnection {
    ProviderConnection(uid, SeedSpec(i), EMPTY_CONNECTION_STATUS)
  }

  lemma SyncedOffersSeed(o: ProviderInventory)
    ensures ClusterInstance(SyncedWith(o, SEEDS), SEEDS[0].id) == FoundService(ServiceOf(SEEDS[0]))
  {
    hide InstanceInfo.Info, SetStatusCondition;
    var synced := SyncedWith(o, SEEDS);
    var conditions := synced.status.conditions;
    var n := FirstOfKind(o.status.conditions, INVENTORY_READY);
    assert conditions[n].kind == INVENTORY_READY && conditions[n].status.ConditionTrue? by {
      SetSets(o.status.conditions, INVENTORY_READY, SYNC_OK, SYNC_OK, 0);
    }
    assert Image(SEEDS)[0] == ServiceOf(SEEDS[0]);
    assert FirstService(Image(SEEDS), SEEDS[0].id) == 0;
  }

  lemma SetSets(conditions: seq<Condition>, kind: string, reason: string, message: string, now: nat)
    ensures var after := SetStatusCondition(conditions, kind, ConditionTrue, reason, message, now);
            var n := FirstOfKind(conditions, kind);
            n < |after| && after[n].kind == kind && after[n].status.ConditionTrue?
  {
  }

  /** A connection for a seed cluster, and an inventory that lists it. */
  ghost predicate Prepared(s: State, i: Key, k: Key) {
    && Follows(INITIAL, s)
    && s.threads == map[0 := Returned(Ok)] && s.sh.store == INITIAL_STORE
    && Hist(s.sh.connections, k) == [Live(NewConnection(0, i))]
    && Hist(s.sh.secrets, SecretKey(k)) == [] && Hist(s.sh.configMaps, ConfigMapKey(k)) == []
    && |Hist(s.sh.inventories, i)| > 0
    && Offers(s.sh, |Hist(s.sh.inventories, i)| - 1, NewConnection(0, i), ServiceOf(SEEDS[0]))
  }

  lemma Prepare(i: Key, k: Key) returns (s: State)
    ensures Prepared(s, i, k)
  {
    hide Follows, Leads, Step, ClusterInstance, WithSynced, ServiceOf;
    var inventory, connection := User(ApplyInventory(i, InventorySpec("secret"))),
          User(ApplyConnection(k, SeedSpec(i)));
    var one := Step(INITIAL, inventory);
    var two := Step(one, connection);
    assert two.sh == INITIAL.sh.(
      inventories := map[i := [Live(ProviderInventory(InventorySpec("secret"), EMPTY_INVENTORY_STATUS))]],
      connections := map[k := [Live(NewConnection(0, i))]]) && two.threads == map[]
    by { Applied(i, k); }
    FollowsSelf(INITIAL);
    FollowsByStep(INITIAL, INITIAL, inventory);
    FollowsByStep(INITIAL, one, connection);
    s := Synchronizes(two, 0, i, 0, k);
    LeadsFollows(two, s, k, 1);
    FollowsOn(INITIAL, two, s);
    assert List(INITIAL_STORE) == SEEDS;
    SyncedOffersSeed(ProviderInventory(InventorySpec("secret"), EMPTY_INVENTORY_STATUS));
  }

  lemma Applied(i: Key, k: Key)
    ensures var one := Step(INITIAL, User(ApplyInventory(i, InventorySpec("secret"))));
            var two := Step(one, User(ApplyConnection(k, SeedSpec(i))));
            && two.sh == INITIAL.sh.(
                 inventories := map[i := [Live(ProviderInventory(InventorySpec("secret"), EMPTY_INVENTORY_STATUS))]],
                 connections := map[k := [Live(NewConnection(0, i))]])
            && two.threads == map[]
  {
    hide ThreadStep, StoreStep;
    assert AppliedInventory([], InventorySpec("secret"))
        == [Live(ProviderInventory(InventorySpec("secret"), EMPTY_INVENTORY_STATUS))];
    assert AppliedConnection([], SeedSpec(i)) == [Live(NewConnection(0, i))];
    var one := Step(INITIAL, User(ApplyInventory(i, InventorySpec("secret"))));
    assert one.sh.inventories == map[i := [Live(ProviderInventory(InventorySpec("secret"), EMPTY_INVENTORY_STATUS))]];
    var two := Step(one, User(ApplyConnection(k, SeedSpec(i))));
    assert two.sh.connections == map[k := [Live(NewConnection(0, i))]];
  }

  /**
   A binding made from the operator's start, and then edited to a service that no cluster has: the
   connection is still bound.
   */
  lemma BoundThenEdited(i: Key, k: Key, spec: ConnectionSpec) returns (actions: seq<Action>)
    requires spec.databaseServiceID !in Ids(SEEDS)
    ensures NoDeletes(actions)
    ensures var sh := Run(INITIAL, actions).sh;
            var h := Hist(sh.connections, k);
            && |h| == 3 && OneLife(h, 0, 2)
            && Bound(h[1].obj) && h[1].obj.spec.databaseServiceID in Ids(List(sh.store))
            && Bound(h[2].obj) && h[2].obj.spec == spec && h[2].obj.spec.databaseServiceID !in Ids(List(sh.store))
  {
    hide Run, NoDeletes, Follows, Leads, Step, Offers, BoundBy, Bound, List, Owned, SecretData, ConfigMapData,
      SecretKey, ConfigMapKey, AllHandsOff;
    var s := Prepare(i, k);
    var o := NewConnection(0, i);
    var bound := Binds(s, 1, k, 0, |Hist(s.sh.inventories, i)| - 1, ServiceOf(SEEDS[0]), k);
    LeadsFollows(s, bound, k, 1);
    FollowsOn(INITIAL, s, bound);
    BoundByIsBound(k, o);
    var edit := User(ApplyConnection(k, spec));
    FollowsByStep(INITIAL, bound, edit);
    var edited := Step(bound, edit);
    SeedsAreListed();
    EditsConnection(bound, k, spec);
    EditKeepsBinding(bound, k, spec);
    actions :| NoDeletes(actions) && Run(INITIAL, actions) == edited by { FollowsIs(INITIAL, edited); }
  }

  lemma SeedsAreListed()
    ensures List(INITIAL_STORE) == SEEDS && SEEDS[0].id in Ids(SEEDS)
  {
    assert Ids(SEEDS)[0] == SEEDS[0].id;
  }

  lemma FollowsIs(a: State, b: State)
    requires Follows(a, b)
    ensures exists actions :: NoDeletes(actions) && AllHandsOff(actions) && Run(a, actions) == b
  {
    hide Run, NoDeletes;
  }

  lemma EditsConnection(s: State, k: Key, spec: ConnectionSpec)
    requires NotDeleted(Hist(s.sh.connections, k))
    requires Hist(s.sh.connections, k)[|Hist(s.sh.connections, k)| - 1].obj.spec != spec
    ensures var h, after := Hist(s.sh.connections, k), Step(s, User(ApplyConnection(k, spec)));
            after == s.(sh := s.sh.(connections := s.sh.connections[k := h + [Live(h[|h| - 1].obj.(spec := spec))]]))
  {
    hide ThreadStep;
  }

  // --------------------------------------------------------- why the proviso is there

  /** A look that finds the artefact of a later life takes it over. */
  lemma ClaimsForItself(s: State, t: Tid, k: Key, v: nat, o: ProviderConnection, service: DatabaseService, uid: nat)
    requires PcOf(s, t) == InConnection(k, v, o, SecretGet(service)) && uid != o.uid
    requires Hist(s.sh.secrets, SecretKey(k)) == [Live(Owned(k, uid, SecretData()))]
    ensures Step(s, Thread(t, Fine(0)))
         == With(s, t, InConnection(k, v, o, SecretPut(service, Some(0), Owned(k, o.uid, SecretData()))))
  {
    hide InstanceNext, InventoryNext, StoreStep, FailConnection, HaveConfigMap, ConfigMapRead, SecretKey, ConfigMapKey,
      ClusterInstance, Labels, SecretData;
  }

  lemma Overwrites(s: State, t: Tid, k: Key, v: nat, o: ProviderConnection, service: DatabaseService, uid: nat)
    requires PcOf(s, t) == InConnection(k, v, o, SecretPut(service, Some(0), Owned(k, o.uid, SecretData())))
          && uid != o.uid
    requires Hist(s.sh.secrets, SecretKey(k)) == [Live(Owned(k, uid, SecretData()))]
    ensures var after := Step(s, Thread(t, Fine(0)));
            && after.sh == s.sh.(secrets := after.sh.secrets)
            && Hist(after.sh.secrets, SecretKey(k))
                  == [Live(Owned(k, uid, SecretData())), Live(Owned(k, o.uid, SecretData()))]
  {
    hide InstanceNext, InventoryNext, ConnectionNext, StoreStep, SecretKey, ConfigMapKey, Labels, SecretData;
  }

  lemma Collects(s: State, k: Key, uid: nat)
    requires var h := Hist(s.sh.secrets, SecretKey(k)); h != [] && h[|h| - 1] == Live(Owned(k, uid, SecretData()))
    requires !IsCurrent(Hist(s.sh.connections, k), uid)
    ensures var after := Step(s, User(CollectSecret(SecretKey(k))));
            && after.sh.connections == s.sh.connections
            && Hist(after.sh.secrets, SecretKey(k)) == Hist(s.sh.secrets, SecretKey(k)) + [Gone]
  {
    hide ThreadStep, StoreStep, Labels, SecretData;
    KeyNamespaces(k);
    assert Key(k.namespace, k.name) == k;
  }

  lemma DeletedAndAppliedAgain(s: State, i: Key, k: Key)
    requires Hist(s.sh.connections, k) == [Live(NewConnection(0, i))]
    ensures var deleted := Step(s, User(DeleteConnection(k)));
            var again := Step(deleted, User(ApplyConnection(k, SeedSpec(i))));
            again == s.(sh := s.sh.(connections :=
              s.sh.connections[k := [Live(NewConnection(0, i)), Gone, Live(NewConnection(2, i))]]))
  {
    hide ThreadStep, StoreStep;
    var h := Hist(s.sh.connections, k);
    assert Deleted(h) == [Live(NewConnection(0, i)), Gone];
    assert AppliedConnection(Deleted(h), SeedSpec(i)) == [Live(NewConnection(0, i)), Gone, Live(NewConnection(2, i))];
  }

  /** A connection bound in its second life, while a reconcile of its first is about to look at the Secret. */
  ghost predicate SecondLife(s: State, i: Key, k: Key) {
    && Follows(INITIAL, s)
    && PcOf(s, 1) == InConnection(k, 0, NewConnection(0, i), SecretGet(ServiceOf(SEEDS[0])))
    && Hist(s.sh.connections, k)
       == [Live(NewConnection(0, i)), Gone, Live(NewConnection(2, i)), Live(BoundBy(k, NewConnection(2, i)))]
    && Hist(s.sh.secrets, SecretKey(k)) == [Live(Owned(k, 2, SecretData()))]
  }

  lemma ReachesSecondLife(i: Key, k: Key) returns (after: State)
    ensures SecondLife(after, i, k)
  {
    hide Follows, Leads, Step, BoundBy, ClusterInstance, SecretKey, ConfigMapKey, Owned, SecretData, ServiceOf;
    var s := Prepare(i, k);
    var service, iv := ServiceOf(SEEDS[0]), |Hist(s.sh.inventories, i)| - 1;
    var one := With(s, 1, InConnection(k, 0, NewConnection(0, i), SecretGet(service)));
    ReachesSecret(s, 1, k, 0, iv, service, k);
    LeadsFollows(s, one, k, 1);
    FollowsOn(INITIAL, s, one);

    var delete, apply := User(DeleteConnection(k)), User(ApplyConnection(k, SeedSpec(i)));
    FollowsByStep(INITIAL, one, delete);
    FollowsByStep(INITIAL, Step(one, delete), apply);
    DeletedAndAppliedAgain(one, i, k);
    var two := Step(Step(one, delete), apply);

    after := Binds(two, 2, k, 2, iv, service, k);
    LeadsFollows(two, after, k, 1);
    FollowsOn(INITIAL, two, after);
  }

  /**
   A connection is deleted and applied again while a reconcile of its first life is under way. The new
   life is bound; then the old reconcile takes over the new Secret, and the garbage collector deletes
   it. No user touched it, and the connection is still True.
   */
  lemma EarlierLifeLosesTheSecret(i: Key, k: Key) returns (actions: seq<Action>)
    ensures NoDeletes(actions) && AllHandsOff(actions)
    ensures CurrentlyBound(Hist(Run(INITIAL, actions).sh.connections, k), 3)
    ensures !NotDeleted(Hist(Run(INITIAL, actions).sh.secrets, SecretKey(k)))
  {
    hide Run, NoDeletes, Follows, Step, BoundBy, Bound, AllHandsOff, SecretKey, Owned, SecretData, ServiceOf;
    var bound := ReachesSecondLife(i, k);
    var former, service, call := NewConnection(0, i), ServiceOf(SEEDS[0]), Thread(1, Fine(0));
    BoundByIsBound(k, NewConnection(2, i));
    ClaimsForItself(bound, 1, k, 0, former, service, 2);
    FollowsByStep(INITIAL, bound, call);
    var taking := Step(bound, call);
    Overwrites(taking, 1, k, 0, former, service, 2);
    FollowsByStep(INITIAL, taking, call);
    var taken := Step(taking, call);
    Collects(taken, k, 0);
    var collect := User(CollectSecret(SecretKey(k)));
    FollowsByStep(INITIAL, taken, collect);
    actions :| NoDeletes(actions) && AllHandsOff(actions) && Run(INITIAL, actions) == Step(taken, collect)
      by { FollowsIs(INITIAL, Step(taken, collect)); }
  }
}
