/** What the delete worker would do to readers that hold no lock, were anything ever sent to it. */
module Deletion {
  import opened Types
  import opened Conditions
  import opened ClusterStore
  import opened StoreLaws
  import opened Api
  import opened Reconcilers
  import opened Operator
  import opened InstanceInfo
  import opened Quiescence
  import opened Writes
  import opened Race
  import opened Fixpoint
  import opened Walks

  /** The delete worker applies what it holds, and then goroutine t makes its next call. */
  function DeleteThenRead(s: State, t: Tid, env: Env): State {
    Step(Step(s, Worker(DeleteApply)), Thread(t, env))
  }

  /**
   In any state of any run, deletes included: the next read of a discovery is out of range when the list is
   too short.
   */
  lemma DiscoveryPanicsIffShort(s: State, t: Tid, env: Env)
    requires PcOf(s, t).InInventory? && PcOf(s, t).atInventory.DiscoverScan?
    requires |PcOf(s, t).atInventory.found| < PcOf(s, t).atInventory.n
    ensures PcOf(Step(s, Thread(t, env)), t).Panicked?
       <==> |List(s.sh.store)| <= |PcOf(s, t).atInventory.found|
  {
    hide Info, StoreStep, WithSynced, InstanceNext, ConnectionNext;
  }

  /**
   A delete that lands between the reads of a discovery makes the next read go out of range exactly
   when the read is past the end already, or at the last index of a list that holds the deleted ID.
   */
  lemma DeleteCanPanicDiscovery(s: State, t: Tid, env: Env)
    requires PcOf(s, t).InInventory? && PcOf(s, t).atInventory.DiscoverScan?
    requires |PcOf(s, t).atInventory.found| < PcOf(s, t).atInventory.n
    requires s.sh.store.deleteHand.Some?
    ensures PcOf(DeleteThenRead(s, t, env), t).Panicked?
       <==> || |List(s.sh.store)| <= |PcOf(s, t).atInventory.found|
            || (|List(s.sh.store)| == |PcOf(s, t).atInventory.found| + 1
                && Lookup(List(s.sh.store), s.sh.store.deleteHand.value).Some?)
  {
    hide Step, StoreStep, List, Lookup;
    DeleteStep(s, t);
    DeletedLength(s.sh.store);
    DiscoveryPanicsIffShort(Step(s, Worker(DeleteApply)), t, env);
  }

  lemma DeleteStep(s: State, t: Tid)
    ensures PcOf(Step(s, Worker(DeleteApply)), t) == PcOf(s, t)
    ensures Step(s, Worker(DeleteApply)).sh.store == StoreStep(s.sh.store, DeleteApply)
  {
    hide StoreStep;
  }

  lemma DeletedLength(s: Store)
    requires s.deleteHand.Some?
    ensures |List(StoreStep(s, DeleteApply))|
         == |List(s)| - if Lookup(List(s), s.deleteHand.value).Some? then 1 else 0
  {
    WorkersOnLists(s.(deleteHand := None), ZERO_CLUSTER, s.deleteHand.value, 0);
  }

  /**
   A scan through a header it has already, with a listed cluster still to be read, and then a delete of
   another cluster and an append: the scan will miss the cluster exactly if it was the last one and the
   deleted one lay behind the scan. The delete moves it there, and the append takes over its old slot.
   */
  lemma DeleteHidesALiveCluster(s: Store, id: string, i: nat, spare: nat)
    requires Distinct(Ids(List(s))) && s.deleteHand.Some? && s.addHand.Some?
    requires i <= FirstIndex(List(s), id) < s.hdr.len
    requires s.deleteHand.value != id && s.addHand.value.id != id
    ensures var after := StoreStep(StoreStep(s, DeleteApply), AddAppend(spare));
            && id in Ids(List(StoreStep(s, DeleteApply))) && id in Ids(List(after))
            && s.hdr.arr < |after.mem| && s.hdr.len <= |after.mem[s.hdr.arr]|
            && ((forall j :: i <= j < s.hdr.len ==> after.mem[s.hdr.arr][j].id != id)
                <==> FirstIndex(List(s), id) == s.hdr.len - 1 && FirstIndex(List(s), s.deleteHand.value) < i)
  {
    DistinctIds(List(s));
    var n, d, p := s.hdr.len, FirstIndex(List(s), s.deleteHand.value), FirstIndex(List(s), id);
    var deleted := StoreStep(s, DeleteApply);
    var after := StoreStep(deleted, AddAppend(spare));
    var slots := after.mem[s.hdr.arr];
    var now := if d < n && p == n - 1 then d else p;
    assert Ids(List(deleted))[now] == id && Ids(List(after))[now] == id;
    assert d < n ==> forall j :: 0 <= j < n - 1 && j != d ==> slots[j] == List(s)[j];
    assert d < n && d < n - 1 ==> slots[d] == List(s)[n - 1];
    assert d < n ==> slots[n - 1] == s.addHand.value;
    assert d == n ==> forall j :: 0 <= j < n ==> slots[j] == List(s)[j];
    if !(p == n - 1 && d < i) {
      assert i <= now < n && slots[now].id == id;
    }
  }

  // ------------------------------------------------------------------ such a run

  /** Some run leads from a to b, deletes allowed. */
  ghost predicate Runs(a: State, b: State) {
    exists actions :: Run(a, actions) == b
  }

  lemma RunsByStep(a: State, b: State, act: Action)
    requires Runs(a, b)
    ensures Runs(a, Step(b, act))
  {
    hide Run, Step;
    var actions :| Run(a, actions) == b;
    RunOne(a, actions, act);
  }

  lemma RunsOn(a: State, b: State, c: State)
    requires Runs(a, b) && (Runs(b, c) || Follows(b, c) || exists k, n :: Leads(b, c, k, n))
    ensures Runs(a, c)
  {
    hide Run, NoDeletes, AllHandsOff, CalmFrom, Starts;
    var first :| Run(a, first) == b;
    assert Runs(b, c);
    var second :| Run(b, second) == c;
    RunAppends(a, first, second);
  }

  lemma RunsSelf(a: State)
    ensures Runs(a, a)
  {
    hide Step;
    assert Run(a, []) == a;
  }

  /**
   A get for an ID that is listed all along answers "not found": it is past the place to which the
   delete moves the cluster, and the slot it has yet to read is taken over by the next append.
   */
  lemma GetMissesALiveCluster(s: State, t: Tid, k: Key, v: nat, o: ProviderInstance, i: nat) returns (after: State)
    requires PcOf(s, t) == InInstance(k, v, o, GetScan(s.sh.store.hdr, i))
    requires var store, id := s.sh.store, o.status.instanceID;
             && Distinct(Ids(List(store))) && store.deleteHand.Some? && store.addHand.Some?
             && FirstIndex(List(store), store.deleteHand.value) < i <= FirstIndex(List(store), id) == store.hdr.len - 1
             && store.deleteHand.value != id && store.addHand.value.id != id
    ensures Runs(s, after)
    ensures PcOf(after, t) == FailInstance(k, v, o, BACKEND_ERROR, NOT_FOUND, 0)
    ensures o.status.instanceID in Ids(List(after.sh.store))
  {
    hide Step, StoreStep, Leads, WithInstanceCondition, FirstIndex, List, Runs;
    var h := s.sh.store.hdr;
    var delete, add := Worker(DeleteApply), Worker(AddAppend(0));
    var two := Step(Step(s, delete), add);
    RunsSelf(s);
    RunsByStep(s, s, delete);
    RunsByStep(s, Step(s, delete), add);
    WorkerSteps(s, DeleteApply);
    WorkerSteps(Step(s, delete), AddAppend(0));
    DeleteHidesALiveCluster(s.sh.store, o.status.instanceID, i, 0);
    var scanning := InInstance(k, v, o, GetScan(h, i));
    var scanned := InInstance(k, v, o, GetScan(h, h.len));
    var missing := FailInstance(k, v, o, BACKEND_ERROR, NOT_FOUND, 0);
    assert two == With(two, t, scanning);
    GetReads(two, t, k, v, o, h, i, h.len, k);
    WithTwice(two, t, scanned, missing);
    GetMiss(With(two, t, scanned), t, k, v, o, h);
    Moves(two, t, scanned, missing, 0, k);
    LeadsOn(two, With(two, t, scanned), With(two, t, missing), k, 0, 0);
    after := With(two, t, missing);
    RunsOn(s, two, after);
  }

  lemma WorkerSteps(s: State, w: StoreAction)
    requires !w.AddSend?
    ensures Step(s, Worker(w)) == s.(sh := s.sh.(store := StoreStep(s.sh.store, w)))
  {
    hide StoreStep, ThreadStep;
  }

  const OTHER_NAME := InstanceSpec(INVENTORY, map[NAME_PARAMETER := "y"])

  function ClusterX(): Cluster {
    Wanted(ProviderInstance(SAME_NAME, EMPTY_INSTANCE_STATUS))
  }

  function ClusterY(): Cluster {
    Wanted(ProviderInstance(OTHER_NAME, EMPTY_INSTANCE_STATUS))
  }

  lemma Names()
    ensures ClusterX().id == ID_PREFIX + "x" && ClusterY().id == ID_PREFIX + "y" && ClusterX().id != ClusterY().id
    ensures Distinct(Ids(SEEDS + [ClusterX()])) && SEEDS[0].id != ClusterX().id
    ensures ClusterY().id !in Ids(SEEDS + [ClusterX()])
    ensures FirstIndex(SEEDS + [ClusterX()], SEEDS[0].id) == 0 && FirstIndex(SEEDS + [ClusterX()], ClusterX().id) == 3
  {
    var x, y := ID_PREFIX + "x", ID_PREFIX + "y";
    assert x[22] == 'x' && y[22] == 'y' && x[19] == 'i' && y[19] == 'i' && |x| == |y| == 23;
    assert SEEDS[0].id[19] == '1' && SEEDS[1].id[19] == '2' && |SEEDS[0].id| == |SEEDS[1].id| == 23
          && |SEEDS[2].id| > 23;
    var list := SEEDS + [ClusterX()];
    DistinctIds(list);
    FirstIndexIs(list, SEEDS[0].id, 0);
    FirstIndexIs(list, x, 3);
  }

  /** Instance ONE has recorded its listed cluster, and another cluster is in the add worker's hand. */
  ghost predicate Stocked(s: State) {
    && Runs(INITIAL, s)
    && Hist(s.sh.instances, ONE) == [Live(ProviderInstance(SAME_NAME, EMPTY_INSTANCE_STATUS)),
                                     Live(Created(ProviderInstance(SAME_NAME, EMPTY_INSTANCE_STATUS)))]
    && LiveAt(Hist(s.sh.inventories, INVENTORY), 0)
    && List(s.sh.store) == SEEDS + [ClusterX()] && s.sh.store.addHand == Some(ClusterY())
    && s.sh.store.deleteHand.None? && s.sh.store.deleteBuf == []
    && 2 !in s.threads
  }

  lemma StockUp() returns (s: State)
    ensures Stocked(s)
  {
    hide Run, Step, MayCreate, Wanted, List, Pipeline, Follows, Leads, Runs, StoreStep, ClusterX, ClusterY, Created,
      Stored;
    SetupState();
    SetupIs();
    NewName();
    Names();
    var start := Run(INITIAL, Setup());
    var applied := ProviderInstance(SAME_NAME, EMPTY_INSTANCE_STATUS);
    assert Runs(INITIAL, start) by { RunIsARun(INITIAL, Setup()); }
    XIs();
    var sent := CreatesUpToWrite(start, 0, ONE, 0, 0);
    RunsOn(INITIAL, start, sent);
    CreatedIs(applied);
    WriteOnLatest(sent, 0, ONE, 0, Created(applied), ReadyStatus);
    RunsByStep(INITIAL, sent, Thread(0, Fine(0)));
    var recorded := Step(sent, Thread(0, Fine(0)));
    StoredNew(Hist(start.sh.instances, ONE), Created(applied));
    LeadsNowhere(recorded, ONE);
    var listed := DrainsAll(recorded, recorded, ONE);
    RunsOn(INITIAL, recorded, listed);

    Edits(listed, TWO, 0, OTHER_NAME);
    RunsByStep(INITIAL, listed, User(ApplyInstance(TWO, OTHER_NAME)));
    var renamed := Step(listed, User(ApplyInstance(TWO, OTHER_NAME)));
    RenamedMayCreate(renamed.sh);
    var second := CreatesUpToWrite(renamed, 1, TWO, 1, 0);
    RunsOn(INITIAL, renamed, second);
    RunsByStep(INITIAL, second, Worker(AddReceive));
    WorkerSteps(second, AddReceive);
    s := Step(second, Worker(AddReceive));
    SendAndReceive(renamed.sh.store, ClusterY());
  }

  lemma RunIsARun(a: State, actions: seq<Action>)
    ensures Runs(a, Run(a, actions))
  {
    hide Run;
  }

  lemma SetupIs()
    ensures Run(INITIAL, Setup()) == State(SetupShared(), map[])
  {
    hide Step;
    RunOne(INITIAL, [], Setup()[0]);
    RunOne(INITIAL, Setup()[..1], Setup()[1]);
    RunOne(INITIAL, Setup()[..2], Setup()[2]);
    assert [] + [Setup()[0]] == Setup()[..1] && Setup()[..1] + [Setup()[1]] == Setup()[..2];
    assert Setup()[..2] + [Setup()[2]] == Setup();
    SetupSteps();
  }

  lemma XIs()
    ensures Wanted(ProviderInstance(SAME_NAME, EMPTY_INSTANCE_STATUS)) == ClusterX()
    ensures Wanted(ProviderInstance(OTHER_NAME, EMPTY_INSTANCE_STATUS)) == ClusterY()
    ensures Pipeline(INITIAL_STORE) == SEEDS && SAME_NAME != OTHER_NAME
  {
    hide Wanted;
    assert SAME_NAME.parameters[NAME_PARAMETER] == "x" && OTHER_NAME.parameters[NAME_PARAMETER] == "y";
  }

  lemma StoredNew(h: History<ProviderInstance>, o: ProviderInstance)
    requires h != [] && h[|h| - 1].Live? && o.status.instanceID != h[|h| - 1].obj.status.instanceID
    ensures Stored(h, o) == h + [Live(o)]
  {
  }

  lemma RenamedMayCreate(sh: Shared)
    requires |Hist(sh.instances, TWO)| == 2
    requires Hist(sh.instances, TWO)[1] == Live(ProviderInstance(OTHER_NAME, EMPTY_INSTANCE_STATUS))
    requires LiveAt(Hist(sh.inventories, INVENTORY), 0)
    ensures MayCreate(sh, TWO, 1, 0)
  {
  }

  lemma SendAndReceive(s: Store, c: Cluster)
    requires s.addHand.None? && s.addBuf == []
    ensures var after := StoreStep(StoreStep(s, AddSend(c)), AddReceive);
            after == s.(addHand := Some(c), addBuf := after.addBuf) && List(after) == List(s)
  {
  }

  /** A get by instance ONE that has read past the first cluster. */
  lemma ReachesSecondRead(s: State, o: ProviderInstance)
    requires Stocked(s) && WithPhase(Hist(s.sh.instances, ONE)[1].obj, Pending) == o
    requires o.status.instanceID != "" && o.status.instanceID != SEEDS[0].id && o.spec.inventoryRef == INVENTORY
    ensures Leads(s, With(s, 2, InInstance(ONE, 1, o, GetScan(s.sh.store.hdr, 1))), ONE, 1)
  {
    hide Step, List, Leads, Runs, ClusterX, ClusterY, Created, WithInstanceCondition;
    var h := s.sh.store.hdr;
    var opening, looking := InInstance(ONE, 1, o, OpenInstanceCloud), InInstance(ONE, 1, o, GetHeader);
    var first, second := InInstance(ONE, 1, o, GetScan(h, 0)), InInstance(ONE, 1, o, GetScan(h, 1));
    Approach(s, 2, ONE, 1, 0, ONE);
    WithTwice(s, 2, opening, looking);
    Open(With(s, 2, opening), 2, ONE, 1, o);
    Moves(s, 2, opening, looking, 0, ONE);
    WithTwice(s, 2, looking, first);
    LookToGet(With(s, 2, looking), 2, ONE, 1, o);
    Moves(s, 2, looking, first, 0, ONE);
    HeaderSees(s.sh.store);
    GetScans(s, 2, ONE, 1, o, h, 0, 1, ONE);
    LeadsOn(s, With(s, 2, opening), With(s, 2, looking), ONE, 1, 0);
    LeadsOn(s, With(s, 2, looking), With(s, 2, first), ONE, 1, 0);
    LeadsOn(s, With(s, 2, first), With(s, 2, second), ONE, 1, 0);
  }

  /** A run from the operator's start in which one delete is sent, and a get misses a listed cluster. */
  lemma GetMissesFromTheStart() returns (actions: seq<Action>)
    ensures var s := Run(INITIAL, actions);
            && PcOf(s, 2).InInstance? && PcOf(s, 2).key == ONE && PcOf(s, 2).atInstance == ErrorStatus(NOT_FOUND)
            && PcOf(s, 2).instance.status.instanceID in Ids(List(s.sh.store))
  {
    hide Run, Step, List, Leads, Runs, ClusterX, ClusterY, Created, SetStatusCondition, FirstIndex, StoreStep;
    var s := StockUp();
    Names();
    var applied := ProviderInstance(SAME_NAME, EMPTY_INSTANCE_STATUS);
    CreatedIs(applied);
    XIs();
    var o := WithPhase(Created(applied), Pending);
    ReachesSecondRead(s, o);
    var scanning := With(s, 2, InInstance(ONE, 1, o, GetScan(s.sh.store.hdr, 1)));
    RunsOn(INITIAL, s, scanning);

    var send, receive := Worker(DeleteSend(SEEDS[0].id)), Worker(DeleteReceive);
    RunsByStep(INITIAL, scanning, send);
    RunsByStep(INITIAL, Step(scanning, send), receive);
    WorkerSteps(scanning, DeleteSend(SEEDS[0].id));
    WorkerSteps(Step(scanning, send), DeleteReceive);
    SendAndReceiveDelete(s.sh.store, SEEDS[0].id);
    HeaderSees(s.sh.store);
    var deleting := Step(Step(scanning, send), receive);
    var after := GetMissesALiveCluster(deleting, 2, ONE, 1, o, 1);
    RunsOn(INITIAL, deleting, after);
    actions :| Run(INITIAL, actions) == after by { RunsIs(INITIAL, after); }
  }

  lemma RunsIs(a: State, b: State)
    requires Runs(a, b)
    ensures exists actions :: Run(a, actions) == b
  {
    hide Run;
  }

  lemma SendAndReceiveDelete(s: Store, id: string)
    requires s.deleteHand.None? && s.deleteBuf == []
    ensures var after := StoreStep(StoreStep(s, DeleteSend(id)), DeleteReceive);
            && after == s.(deleteHand := Some(id), deleteBuf := after.deleteBuf)
            && List(after) == List(s)
  {
  }
}
