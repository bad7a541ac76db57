/** The bound on the copies of an ID is attained, for every number of creates at a time. */
module Tightness {
  import opened Types
  import opened ClusterStore
  import opened Api
  import opened Reconcilers
  import opened Operator
  import opened Duplicates
  import opened Race
  import opened Walks

  /** Some run without deletes leads from a to b, with never more than limit creates under way. */
  ghost predicate Crowded(a: State, b: State, limit: nat) {
    exists actions :: NoDeletes(actions) && Run(a, actions) == b && FewCreating(a, actions, limit)
  }

  ghost predicate FewCreating(a: State, actions: seq<Action>, limit: nat) {
    forall n :: 0 <= n <= |actions| ==> |Creators(Run(a, actions[..n]))| <= limit
  }

  lemma CrowdedSelf(a: State, limit: nat)
    requires |Creators(a)| <= limit
    ensures Crowded(a, a, limit)
  {
    hide Creators;
    assert NoDeletes([]) && Run(a, []) == a && FewCreating(a, [], limit);
  }

  lemma CrowdedByStep(a: State, b: State, act: Action, limit: nat)
    requires Crowded(a, b, limit) && NoDelete(act) && |Creators(Step(b, act))| <= limit
    ensures Crowded(a, Step(b, act), limit)
  {
    hide Run, NoDelete, Step, Creators;
    var actions :| NoDeletes(actions) && Run(a, actions) == b && FewCreating(a, actions, limit);
    var more := actions + [act];
    RunOne(a, actions, act);
    forall n | 0 <= n <= |more|
      ensures |Creators(Run(a, more[..n]))| <= limit
    {
      assert n <= |actions| ==> more[..n] == actions[..n];
      assert n == |more| ==> more[..n] == more;
    }
    assert NoDeletes(more) && Run(a, more) == Step(b, act) && FewCreating(a, more, limit);
  }

  /** Wherever one goroutine stands, it is one create at most. */
  lemma OneMoreCreator(s: State, t: Tid, pc: Pc)
    ensures |Creators(With(s, t, pc))| <= |Creators(s)| + if InCreate(pc) then 1 else 0
  {
    hide InCreate;
    var before, after := Creators(s), Creators(With(s, t, pc));
    if InCreate(pc) {
      assert after <= before + {t};
      SubsetSize(after, before + {t});
    } else {
      assert after <= before;
      SubsetSize(after, before);
    }
  }

  lemma CrowdedMove(a: State, s: State, t: Tid, from: Pc, to: Pc, version: nat, limit: nat)
    requires Crowded(a, With(s, t, from), limit) && |Creators(s)| < limit
    requires Step(With(s, t, from), Thread(t, Fine(version))) == With(With(s, t, from), t, to)
    ensures Crowded(a, With(s, t, to), limit)
  {
    hide Crowded, Step, Creators;
    WithTwice(s, t, from, to);
    OneMoreCreator(s, t, to);
    CrowdedByStep(a, With(s, t, from), Thread(t, Fine(version)), limit);
  }

  lemma {:induction false} CrowdedScan(
    a: State, s: State, t: Tid, k: Key, v: nat, o: ProviderInstance, want: Cluster, n: nat, limit: nat)
    requires n <= s.sh.store.hdr.len && want.id !in Ids(List(s.sh.store)) && |Creators(s)| < limit
    requires Crowded(a, With(s, t, InInstance(k, v, o, CreateScan(want, s.sh.store.hdr, 0))), limit)
    ensures Crowded(a, With(s, t, InInstance(k, v, o, CreateScan(want, s.sh.store.hdr, n))), limit)
  {
    hide Crowded, Step, Creators;
    var h := s.sh.store.hdr;
    if n == 0 {
    } else {
      var before := InInstance(k, v, o, CreateScan(want, h, n - 1));
      var after := InInstance(k, v, o, CreateScan(want, h, n));
      CrowdedScan(a, s, t, k, v, o, want, n - 1, limit);
      WithTwice(s, t, before, after);
      assert Ids(List(s.sh.store))[n - 1] != want.id;
      CreateScanStep(With(s, t, before), t, k, v, o, want, h, n - 1);
      CrowdedMove(a, s, t, before, after, 0, limit);
    }
  }

  /** One more create gets to its send. */
  lemma CrowdedWalk(a: State, s: State, t: Tid, k: Key, v: nat, iv: nat, limit: nat)
    requires Crowded(a, s, limit) && |Creators(s)| < limit && Resting(PcOf(s, t))
    requires MayCreate(s.sh, k, v, iv) && Wanted(Hist(s.sh.instances, k)[v].obj).id !in Ids(List(s.sh.store))
    ensures Crowded(a, With(s, t, AboutToSend(s.sh, k, v)), limit)
  {
    hide Crowded, Step, Creators, Wanted, HasSuffix, Parameter, List;
    var o, h := Hist(s.sh.instances, k)[v].obj, s.sh.store.hdr;
    var start, finding := InstanceStart(k), InInstance(k, v, WithPhase(o, Unknown), FindInventory);
    var opening := InInstance(k, v, WithPhase(o, Pending), OpenInstanceCloud);
    var looking := InInstance(k, v, WithPhase(o, Creating), CreateHeader(Wanted(o)));
    var scanning := InInstance(k, v, WithPhase(o, Creating), CreateScan(Wanted(o), h, 0));
    Spawned(s, t, start);
    OneMoreCreator(s, t, start);
    CrowdedByStep(a, s, Spawn(t, start), limit);
    Begin(s, t, k, v);
    WithTwice(s, t, start, finding);
    CrowdedMove(a, s, t, start, finding, v, limit);
    PhaseAside(o, Unknown, Pending);
    PhaseAside(o, Pending, Creating);
    PhaseAside(o, Creating, Creating);
    WithTwice(s, t, finding, opening);
    Find(With(s, t, finding), t, k, v, WithPhase(o, Unknown), iv);
    CrowdedMove(a, s, t, finding, opening, iv, limit);
    WithTwice(s, t, opening, looking);
    Open(With(s, t, opening), t, k, v, WithPhase(o, Pending));
    CrowdedMove(a, s, t, opening, looking, 0, limit);
    WithTwice(s, t, looking, scanning);
    LookToCreate(With(s, t, looking), t, k, v, WithPhase(o, Creating), Wanted(o));
    CrowdedMove(a, s, t, looking, scanning, 0, limit);
    HeaderSees(s.sh.store);
    CrowdedScan(a, s, t, k, v, WithPhase(o, Creating), Wanted(o), h.len, limit);
  }

  // -------------------------------------------------------------- filling the pipeline

  const NAME := ID_PREFIX + "x"

  /** Instance ONE may create its unlisted cluster, and no goroutine from t on has been started. */
  ghost predicate Filling(s: State, t: Tid, copies: nat) {
    && MayCreate(s.sh, ONE, 0, 0) && Wanted(Hist(s.sh.instances, ONE)[0].obj).id == NAME
    && NAME !in Ids(List(s.sh.store))
    && multiset(Ids(Pipeline(s.sh.store)))[NAME] == copies
    && (forall u :: t <= u ==> u !in s.threads)
    && Creators(s) == {}
  }

  lemma OneMoreCopy(a: State, s: State, t: Tid, limit: nat, copies: nat) returns (after: State)
    requires limit > 0 && Crowded(a, s, limit) && Filling(s, t, copies) && |s.sh.store.addBuf| < CAPACITY
    ensures Crowded(a, after, limit) && Filling(after, t + 1, copies + 1)
    ensures |after.sh.store.addBuf| == |s.sh.store.addBuf| + 1 && after.sh.store.addHand == s.sh.store.addHand
  {
    hide Crowded, Step, Wanted, HasSuffix, Parameter, MayCreate, List, Pipeline, HaveCluster;
    MayCreateLives(s.sh);
    var o := Hist(s.sh.instances, ONE)[0].obj;
    var sending := With(s, t, AboutToSend(s.sh, ONE, 0));
    CrowdedWalk(a, s, t, ONE, 0, 0, limit);
    WithTwice(s, t, AboutToSend(s.sh, ONE, 0), Idle);
    Send(sending, t, ONE, 0, WithPhase(o, Creating), Wanted(o), s.sh.store.hdr);
    after := Step(sending, Thread(t, Fine(0)));
    var sent := HaveCluster(ONE, 0, WithPhase(o, Creating), Wanted(o), 0);
    NotInCreate(ONE, 0, WithPhase(o, Creating), Wanted(o));
    assert Creators(after) == {};
    CrowdedByStep(a, sending, Thread(t, Fine(0)), limit);
    AcceptAdds(s.sh, Wanted(o), ONE);
  }

  lemma MayCreateLives(sh: Shared)
    requires MayCreate(sh, ONE, 0, 0)
    ensures LiveAt(Hist(sh.instances, ONE), 0)
  {
  }

  lemma NotInCreate(k: Key, v: nat, o: ProviderInstance, c: Cluster)
    ensures !InCreate(HaveCluster(k, v, o, c, 0))
  {
  }

  lemma AcceptAdds(sh: Shared, c: Cluster, k: Key)
    requires |sh.store.addBuf| < CAPACITY
    ensures var after := Accept(sh, c, k);
            && after.instances == sh.instances && after.inventories == sh.inventories
            && List(after.store) == List(sh.store) && after.store.addHand == sh.store.addHand
            && |after.store.addBuf| == |sh.store.addBuf| + 1
            && Ids(Pipeline(after.store)) == Ids(Pipeline(sh.store)) + [c.id]
            && (MayCreate(sh, ONE, 0, 0) ==> MayCreate(after, ONE, 0, 0))
  {
    IdsGrow(sh.store, AddSend(c));
  }

  lemma TakeOne(a: State, s: State, t: Tid, limit: nat, copies: nat) returns (after: State)
    requires Crowded(a, s, limit) && Filling(s, t, copies)
    requires s.sh.store.addHand.None? && s.sh.store.addBuf != []
    ensures Crowded(a, after, limit) && Filling(after, t, copies)
    ensures after.sh.store.addHand.Some? && |after.sh.store.addBuf| == |s.sh.store.addBuf| - 1
  {
    hide Crowded, Wanted, HasSuffix, Parameter, ThreadStep, UserStep;
    after := Step(s, Worker(AddReceive));
    assert Creators(after) == {};
    CrowdedByStep(a, s, Worker(AddReceive), limit);
    WorkerKeepsPipeline(s.sh.store, AddReceive);
  }

  lemma {:induction false} FillBuffer(
    a: State, s: State, t: Tid, limit: nat, copies: nat, m: nat)
    returns (after: State)
    requires limit > 0 && Crowded(a, s, limit) && Filling(s, t, copies) && |s.sh.store.addBuf| + m <= CAPACITY
    ensures Crowded(a, after, limit) && Filling(after, t + m, copies + m)
    ensures after.sh.store.addHand == s.sh.store.addHand && |after.sh.store.addBuf| == |s.sh.store.addBuf| + m
  {
    hide Crowded, Filling;
    if m == 0 {
      after := s;
    } else {
      var before := FillBuffer(a, s, t, limit, copies, m - 1);
      after := OneMoreCopy(a, before, t + m - 1, limit, copies + m - 1);
    }
  }

  // ----------------------------------------------------------------- the scanners

  /** m creates stand before their sends, and none of them has seen the ID. */
  ghost predicate Poised(s: State, t: Tid, m: nat) {
    && MayCreate(s.sh, ONE, 0, 0) && Wanted(Hist(s.sh.instances, ONE)[0].obj).id == NAME
    && NAME !in Ids(List(s.sh.store))
    && multiset(Ids(Pipeline(s.sh.store)))[NAME] == 6
    && (forall u :: t <= u ==> u !in s.threads)
    && |Creators(s)| <= m && |Lackers(s, NAME)| == m
  }

  lemma OneMorePoised(a: State, s: State, t: Tid, limit: nat, m: nat) returns (after: State)
    requires Crowded(a, s, limit) && Poised(s, t, m) && m < limit
    ensures Crowded(a, after, limit) && Poised(after, t + 1, m + 1)
  {
    hide Crowded, Step, Wanted, HasSuffix, Parameter, MayCreate, List, Pipeline, Lacks, InCreate;
    MayCreateLives(s.sh);
    var here := AboutToSend(s.sh, ONE, 0);
    CrowdedWalk(a, s, t, ONE, 0, 0, limit);
    after := With(s, t, here);
    OneMoreCreator(s, t, here);
    PoisedLacks(s, here);
    assert t !in Lackers(s, NAME);
    assert Lackers(after, NAME) == Lackers(s, NAME) + {t};
  }

  lemma PoisedLacks(s: State, here: Pc)
    requires MayCreate(s.sh, ONE, 0, 0) && Wanted(Hist(s.sh.instances, ONE)[0].obj).id == NAME
    requires NAME !in Ids(List(s.sh.store)) && here == AboutToSend(s.sh, ONE, 0)
    ensures Lacks(s.sh.store, here, NAME)
  {
    hide Wanted;
    HeaderSees(s.sh.store);
  }

  lemma {:induction false} ManyPoised(a: State, s: State, t: Tid, limit: nat, m: nat) returns (after: State)
    requires Crowded(a, s, limit) && Poised(s, t, 0) && m <= limit
    ensures Crowded(a, after, limit) && Poised(after, t + m, m)
  {
    hide Crowded, Poised;
    if m == 0 {
      after := s;
    } else {
      var before := ManyPoised(a, s, t, limit, m - 1);
      after := OneMorePoised(a, before, t + m - 1, limit, m - 1);
    }
  }

  /** For every limit there is a run from the start, without deletes, in which an ID has limit + 6 copies. */
  lemma CopiesBoundIsAttained(limit: nat) returns (actions: seq<Action>)
    requires limit > 0
    ensures NoDeletes(actions) && AtMostCreating(actions, limit)
    ensures Copies(Run(INITIAL, actions), NAME) == limit + 6
  {
    hide Run, Step, Filling, Poised, NoDeletes, Creators, Lackers, Pipeline;
    var start := StartFilling(limit);
    var one := OneMoreCopy(INITIAL, start, 0, limit, 0);
    var taken := TakeOne(INITIAL, one, 1, limit, 1);
    var full := FillBuffer(INITIAL, taken, 1, limit, 1, 5);
    FullIsPoised(full, 6);
    var crowd := ManyPoised(INITIAL, full, 6, limit, limit);
    PoisedCopies(crowd, 6 + limit, limit);
    actions :| NoDeletes(actions) && Run(INITIAL, actions) == crowd && FewCreating(INITIAL, actions, limit);
  }

  lemma FullIsPoised(s: State, t: Tid)
    requires Filling(s, t, 6)
    ensures Poised(s, t, 0)
  {
    hide Wanted, MayCreate, Lacks, InCreate;
    LackersAreCreators(s, NAME);
    assert |Lackers(s, NAME)| == 0;
  }

  lemma PoisedCopies(s: State, t: Tid, m: nat)
    requires Poised(s, t, m)
    ensures Copies(s, NAME) == m + 6
  {
    hide Lackers, Creators;
  }

  lemma StartFilling(limit: nat) returns (s: State)
    requires limit > 0
    ensures Crowded(INITIAL, s, limit) && Filling(s, 0, 0)
    ensures s.sh.store.addHand.None? && s.sh.store.addBuf == []
  {
    hide Crowded, Run, Step, MayCreate, Wanted;
    SetupState();
    NewName();
    s := Run(INITIAL, Setup());
    var setup := Setup();
    RunOne(INITIAL, [], setup[0]);
    RunOne(INITIAL, setup[..1], setup[1]);
    RunOne(INITIAL, setup[..2], setup[2]);
    assert [] + [setup[0]] == setup[..1] && setup[..1] + [setup[1]] == setup[..2] && setup[..2] + [setup[2]] == setup;
    assert Creators(INITIAL) == {};
    RunEmpty();
    CrowdedSelf(INITIAL, limit);
    UsersCreateNothing(INITIAL, setup[0]);
    CrowdedByStep(INITIAL, INITIAL, setup[0], limit);
    UsersCreateNothing(Step(INITIAL, setup[0]), setup[1]);
    CrowdedByStep(INITIAL, Step(INITIAL, setup[0]), setup[1], limit);
    UsersCreateNothing(Step(Step(INITIAL, setup[0]), setup[1]), setup[2]);
    CrowdedByStep(INITIAL, Step(Step(INITIAL, setup[0]), setup[1]), setup[2], limit);
    assert Pipeline(INITIAL_STORE) == List(INITIAL_STORE);
  }

  lemma RunEmpty()
    ensures Run(INITIAL, []) == INITIAL
  {
  }

  lemma UsersCreateNothing(s: State, a: Action)
    requires a.User?
    ensures Creators(Step(s, a)) == Creators(s)
  {
    hide UserStep, InCreate;
  }
}
