/** Which runs duplicate an ID, exactly; and that some do: two creates for one name, started together. */
module Race {
  import opened Types
  import opened ClusterStore
  import opened Api
  import opened Reconcilers
  import opened Operator
  import opened Invariants
  import opened Safety
  import opened Discovery
  import opened Duplicates
  import opened Ownership
  import opened Quiescence
  import opened Walks

  /**
   The step sends an ID that its scan could not see: it was appended after the scan's snapshot, or is
   in the worker's hand or in the buffer.
   */
  predicate SendsUnseen(s: State, a: Action) {
    && a.Thread? && Scanning(PcOf(s, a.t))
    && RequestOf(PcOf(s, a.t)).SendAdd? && Enabled(s.sh, RequestOf(PcOf(s, a.t)))
    && var at := PcOf(s, a.t).atInstance;
       at.h.len <= |Pipeline(s.sh.store)| && at.want.id in Ids(Pipeline(s.sh.store))[at.h.len..]
  }

  lemma DistinctWithOneMore(ids: seq<string>, id: string)
    ensures Distinct(ids + [id]) <==> Distinct(ids) && id !in ids
  {
    var more := ids + [id];
    if Distinct(more) {
      assert forall i :: 0 <= i < |ids| ==> more[i] == ids[i] && more[|ids|] == id;
    }
  }

  lemma SendIsDistinct(s: State, t: Tid, env: Env)
    requires Inv(s) && RequestOf(PcOf(s, t)).SendAdd? && Enabled(s.sh, RequestOf(PcOf(s, t)))
    ensures Distinct(Ids(Pipeline(ThreadStep(s, t, env).sh.store)))
       <==> Distinct(Ids(Pipeline(s.sh.store))) && !SendsUnseen(s, Thread(t, env))
  {
    hide Next, SharedOK, Serve, Distinct, InstanceThreadOK, InventoryThreadOK, ConnectionThreadOK;
    var pc, req := PcOf(s, t), RequestOf(PcOf(s, t));
    var ids, n := Ids(Pipeline(s.sh.store)), pc.atInstance.h.len;
    SendAddsOne(s.sh, req, env);
    assert ThreadOK(s.sh, pc);
    SenderLacks(s.sh, pc, Serve(s.sh, req, env).1, env.now, req.cluster.id);
    DistinctWithOneMore(ids, req.cluster.id);
    assert Ids(List(s.sh.store))[..n] == ids[..n];
    assert ids == ids[..n] + ids[n..];
  }

  lemma StepIsDistinct(s: State, a: Action)
    requires Inv(s) && NoDelete(a)
    ensures Distinct(Ids(Pipeline(Step(s, a).sh.store)))
       <==> Distinct(Ids(Pipeline(s.sh.store))) && !SendsUnseen(s, a)
  {
    hide Inv, Next, Serve, RequestOf, Enabled, StoreStep, UserStep, Pipeline, List, Distinct, SendsUnseen, Scanning;
    match a
    case Worker(w) =>
      if !w.AddSend? {
        IdsGrow(s.sh.store, w);
        assert Ids(Pipeline(s.sh.store)) + [] == Ids(Pipeline(s.sh.store));
      }
      OnlyThreadsSend(s, a);
    case User(u) =>
      UsersAreApart(s.sh, u);
      OnlyThreadsSend(s, a);
    case Spawn(_, _) => OnlyThreadsSend(s, a);
    case Thread(t, env) =>
      var req := RequestOf(PcOf(s, t));
      if Enabled(s.sh, req) && req.SendAdd? {
        SendIsDistinct(s, t, env);
      } else {
        OnlyThreadsSend(s, a);
        if Enabled(s.sh, req) {
          OnlySendsTouchTheStore(s.sh, req, env);
        }
      }
  }

  lemma OnlyThreadsSend(s: State, a: Action)
    requires a.Thread? ==> !(RequestOf(PcOf(s, a.t)).SendAdd? && Enabled(s.sh, RequestOf(PcOf(s, a.t))))
    ensures !SendsUnseen(s, a)
  {
  }

  ghost predicate NothingUnseen(actions: seq<Action>) {
    forall n :: 0 <= n < |actions| ==> !SendsUnseen(Run(INITIAL, actions[..n]), actions[n])
  }

  lemma NothingUnseenByStep(actions: seq<Action>, n: nat)
    requires |actions| == n + 1
    ensures NothingUnseen(actions)
       <==> NothingUnseen(actions[..n]) && !SendsUnseen(Run(INITIAL, actions[..n]), actions[n])
  {
    hide Run, SendsUnseen;
    assert forall m :: 0 <= m < n ==> actions[..n][..m] == actions[..m] && actions[..n][m] == actions[m];
    if NothingUnseen(actions) {
      forall m | 0 <= m < n
        ensures !SendsUnseen(Run(INITIAL, actions[..n][..m]), actions[..n][m])
      {
        assert !SendsUnseen(Run(INITIAL, actions[..m]), actions[m]);
      }
    } else if NothingUnseen(actions[..n]) {
      forall m | 0 <= m < n
        ensures !SendsUnseen(Run(INITIAL, actions[..m]), actions[m])
      {
        assert !SendsUnseen(Run(INITIAL, actions[..n][..m]), actions[..n][m]);
      }
    }
  }

  /** No ID is accepted twice exactly when no create sends an ID that its scan could not see. */
  lemma {:induction false} UniqueIffNothingUnseen(actions: seq<Action>)
    requires NoDeletes(actions)
    ensures Distinct(Ids(Pipeline(Run(INITIAL, actions).sh.store))) <==> NothingUnseen(actions)
    decreases |actions|
  {
    hide Inv, Step, NoDelete, Distinct, SendsUnseen, Pipeline, NothingUnseen;
    if actions == [] {
      assert NothingUnseen([]) by { NothingIsUnseenYet(); }
      InitialTurns();
    } else {
      var n := |actions| - 1;
      NothingUnseenByStep(actions, n);
      UniqueIffNothingUnseen(actions[..n]);
      RunKeeps(actions[..n]);
      StepIsDistinct(Run(INITIAL, actions[..n]), actions[n]);
    }
  }

  lemma NothingIsUnseenYet()
    ensures NothingUnseen([])
  {
  }

  /**
   When no create sends what it could not see, no two instances ever hold the same ID, now or in any older
   version.
   */
  lemma OwnershipIsExclusive(actions: seq<Action>, j: Key, v: nat, k: Key, w: nat)
    requires NoDeletes(actions) && NothingUnseen(actions)
    requires LiveAt(Hist(Run(INITIAL, actions).sh.instances, j), v)
    requires LiveAt(Hist(Run(INITIAL, actions).sh.instances, k), w)
    requires Hist(Run(INITIAL, actions).sh.instances, j)[v].obj.status.instanceID != ""
    requires Hist(Run(INITIAL, actions).sh.instances, j)[v].obj.status.instanceID
          == Hist(Run(INITIAL, actions).sh.instances, k)[w].obj.status.instanceID
    ensures j == k
  {
    hide Run, NoDeletes, NothingUnseen, InventoryVersionOK, ConnectionVersionOK, PhaseOK;
    UniqueIffNothingUnseen(actions);
    RunKeeps(actions);
    var sh := Run(INITIAL, actions).sh;
    var id := Hist(sh.instances, j)[v].obj.status.instanceID;
    assert InstanceHistoryOK(sh.log, j, Hist(sh.instances, j));
    assert InstanceHistoryOK(sh.log, k, Hist(sh.instances, k));
    assert Made(sh.log, j, id) && Made(sh.log, k, id);
    var x :| 0 <= x < |sh.log| && sh.log[x].cluster.id == id && sh.log[x].owner == j;
    var y :| 0 <= y < |sh.log| && sh.log[y].cluster.id == id && sh.log[y].owner == k;
    var ids := Ids(SEEDS + Clusters(sh.log));
    assert Ids(Pipeline(sh.store)) == ids;
    assert ids[|SEEDS| + x] == ids[|SEEDS| + y] == id;
  }

  /** Creates that take turns see everything there is. */
  lemma TurnsLeaveNothingUnseen(actions: seq<Action>)
    requires NoDeletes(actions) && CreatesTakeTurns(actions)
    ensures NothingUnseen(actions)
  {
    hide Run, NoDeletes, CreatesTakeTurns, NothingUnseen;
    IdsStayUnique(actions);
    UniqueIffNothingUnseen(actions);
  }

  lemma Sends(s: State, t: Tid)
    requires Scanning(PcOf(s, t)) && PcOf(s, t).atInstance.i == PcOf(s, t).atInstance.h.len
    requires |s.sh.store.addBuf| < CAPACITY
    ensures var after := Step(s, Thread(t, Fine(0)));
            && Ids(Pipeline(after.sh.store)) == Ids(Pipeline(s.sh.store)) + [PcOf(s, t).atInstance.want.id]
            && |after.sh.store.addBuf| == |s.sh.store.addBuf| + 1
            && (forall u :: u != t ==> PcOf(after, u) == PcOf(s, u))
  {
    hide Next;
    IdsGrow(s.sh.store, AddSend(PcOf(s, t).atInstance.want));
  }

  /**
   From any state in which two idle goroutines, two instances that want one unlisted name, and room
   for two sends are at hand, there is a run without deletes that puts that ID in the pipeline twice.
   */
  lemma RacingCreatesDuplicate(s: State, t: Tid, j: Key, v: nat, x: nat, u: Tid, k: Key, w: nat, y: nat)
    returns (actions: seq<Action>)
    requires t != u && Resting(PcOf(s, t)) && Resting(PcOf(s, u))
    requires MayCreate(s.sh, j, v, x) && MayCreate(s.sh, k, w, y)
    requires Wanted(Hist(s.sh.instances, j)[v].obj).id == Wanted(Hist(s.sh.instances, k)[w].obj).id
    requires Wanted(Hist(s.sh.instances, j)[v].obj).id !in Ids(List(s.sh.store))
    requires |s.sh.store.addBuf| + 2 <= CAPACITY
    ensures NoDeletes(actions)
    ensures var id := Wanted(Hist(s.sh.instances, j)[v].obj).id;
            Ids(Pipeline(Run(s, actions).sh.store)) == Ids(Pipeline(s.sh.store)) + [id, id]
  {
    hide Step, Run, Wanted, Pipeline, List, CalmFrom, Starts;
    var id := Wanted(Hist(s.sh.instances, j)[v].obj).id;
    var one := With(s, t, AboutToSend(s.sh, j, v));
    var both := With(one, u, AboutToSend(s.sh, k, w));
    var sendT, sendU := Thread(t, Fine(0)), Thread(u, Fine(0));
    WalksToSend(s, t, j, v, x, j);
    WalksToSend(one, u, k, w, y, j);
    LeadsOn(s, one, both, j, 1, 1);
    FineIsCalm(both, t, 0, j);
    LeadsOnByStep(s, both, sendT, Step(both, sendT), j, 2);
    Sends(both, t);
    FineIsCalm(Step(both, sendT), u, 0, j);
    LeadsOnByStep(s, Step(both, sendT), sendU, Step(Step(both, sendT), sendU), j, 2);
    Sends(Step(both, sendT), u);
    actions :| CalmFrom(s, actions, j) && Run(s, actions) == Step(Step(both, sendT), sendU) && Starts(actions) <= 2;
    CalmDeletesNothing(s, actions, j);
    assert Ids(Pipeline(s.sh.store)) + [id] + [id] == Ids(Pipeline(s.sh.store)) + [id, id];
  }

  const INVENTORY := Key("ns", "inventory")
  const ONE := Key("ns", "one")
  const TWO := Key("ns", "two")
  const SAME_NAME := InstanceSpec(INVENTORY, map[NAME_PARAMETER := "x"])

  function Setup(): seq<Action> {
    [User(ApplyInventory(INVENTORY, InventorySpec("secret"))),
     User(ApplyInstance(ONE, SAME_NAME)), User(ApplyInstance(TWO, SAME_NAME))]
  }

  function SetupShared(): Shared {
    var one := Live(ProviderInstance(SAME_NAME, EMPTY_INSTANCE_STATUS));
    INITIAL.sh.(
      inventories := map[INVENTORY := [Live(ProviderInventory(InventorySpec("secret"), EMPTY_INVENTORY_STATUS))]],
      instances := map[ONE := [one], TWO := [one]])
  }

  lemma SetupSteps()
    ensures Step(Step(Step(INITIAL, Setup()[0]), Setup()[1]), Setup()[2]) == State(SetupShared(), map[])
  {
    hide StoreStep, ThreadStep;
    assert AppliedInventory([], InventorySpec("secret"))
        == [Live(ProviderInventory(InventorySpec("secret"), EMPTY_INVENTORY_STATUS))];
    assert AppliedInstance([], SAME_NAME) == [Live(ProviderInstance(SAME_NAME, EMPTY_INSTANCE_STATUS))];
    var two := Step(Step(INITIAL, Setup()[0]), Setup()[1]);
    assert two.sh.instances == map[ONE := [Live(ProviderInstance(SAME_NAME, EMPTY_INSTANCE_STATUS))]];
  }

  lemma SetupMayCreate()
    ensures MayCreate(SetupShared(), ONE, 0, 0) && MayCreate(SetupShared(), TWO, 0, 0)
    ensures Wanted(ProviderInstance(SAME_NAME, EMPTY_INSTANCE_STATUS)).id == ID_PREFIX + "x"
  {
  }

  lemma SetupState()
    ensures var s := Run(INITIAL, Setup());
            && s.threads == map[] && s.sh.store == INITIAL_STORE
            && Hist(s.sh.instances, ONE) == [Live(ProviderInstance(SAME_NAME, EMPTY_INSTANCE_STATUS))]
            && MayCreate(s.sh, ONE, 0, 0) && MayCreate(s.sh, TWO, 0, 0)
            && Wanted(Hist(s.sh.instances, ONE)[0].obj).id == ID_PREFIX + "x"
            && Wanted(Hist(s.sh.instances, TWO)[0].obj).id == ID_PREFIX + "x"
  {
    hide Step, MayCreate, Wanted;
    RunOne(INITIAL, [], Setup()[0]);
    RunOne(INITIAL, Setup()[..1], Setup()[1]);
    RunOne(INITIAL, Setup()[..2], Setup()[2]);
    assert [] + [Setup()[0]] == Setup()[..1] && Setup()[..1] + [Setup()[1]] == Setup()[..2];
    assert Setup()[..2] + [Setup()[2]] == Setup();
    SetupSteps();
    SetupMayCreate();
  }

  lemma SetupDeletesNothing()
    ensures NoDeletes(Setup())
  {
  }

  lemma NewName()
    ensures ID_PREFIX + "x" !in Ids(List(INITIAL_STORE))
  {
    var id := ID_PREFIX + "x";
    assert id[19] == 'i' && |id| == 23;
    assert SEEDS[0].id[19] == '1' && SEEDS[1].id[19] == '2' && |SEEDS[2].id| > 23;
    assert List(INITIAL_STORE) == SEEDS;
  }

  /** A run of the whole operator, from its start and without deletes, that accepts one ID twice. */
  lemma UniquenessNeedsTurns() returns (actions: seq<Action>)
    ensures NoDeletes(actions)
    ensures !Distinct(Ids(Pipeline(Run(INITIAL, actions).sh.store)))
  {
    hide Run, Step, MayCreate, Wanted;
    SetupState();
    var s := Run(INITIAL, Setup());
    var id := ID_PREFIX + "x";
    NewName();
    var rest := RacingCreatesDuplicate(s, 0, ONE, 0, 0, 1, TWO, 0, 0);
    actions := Setup() + rest;
    RunAppends(INITIAL, Setup(), rest);
    var p := Pipeline(Run(INITIAL, actions).sh.store);
    assert Ids(p)[|p| - 2] == id && Ids(p)[|p| - 1] == id;
    assert p[|p| - 2].id == p[|p| - 1].id;
  }
}
