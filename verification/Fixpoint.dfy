/**
 When exactly an instance's status has come to rest, in calm runs, and that it can always get there
 within two more reconciles.
 */
module Fixpoint {
  import opened Types
  import opened Conditions
  import opened ClusterStore
  import opened StoreLaws
  import InstanceInfo
  import opened Api
  import opened Reconcilers
  import opened Operator
  import opened Growth
  import opened Invariants
  import opened ThreadSteps
  import opened Safety
  import opened Theorems
  import opened Quiescence
  import opened Walks
  import D = Discovery

  /** A reconcile that read the latest version, but whose get cannot report the cluster missing. */
  ghost predicate Harmless(sh: Shared, k: Key, pc: Pc) {
    var h := Hist(sh.instances, k);
    pc.InInstance? && pc.key == k && LiveAt(h, pc.base) && pc.base == |h| - 1 ==>
      match pc.atInstance
      case GetScan(hdr, _) => hdr.len <= |List(sh.store)|
            && h[pc.base].obj.status.instanceID in Ids(List(sh.store))[..hdr.len]
      case ErrorStatus(_) => false
      case _ => true
  }

  /** The second version is the cluster a lookup finds, and nobody is about to report it missing. */
  ghost predicate FoundAtOnce(s: State, k: Key) {
    var h := Hist(s.sh.instances, k);
    && |h| == 2 && h[1].Live? && Found(List(s.sh.store), h[1].obj)
    && forall t :: t in s.threads ==> Harmless(s.sh, k, s.threads[t])
  }

  /** The status has come to rest. */
  ghost predicate Fixed(s: State, k: Key) {
    Settled(Hist(s.sh.instances, k)) || FoundAtOnce(s, k)
  }

  // -------------------------------------------------------------- fixed for good

  lemma HarmlessStable(a: Shared, b: Shared, k: Key, pc: Pc)
    requires OnlyAdds(a.store, b.store) && Hist(a.instances, k) == Hist(b.instances, k)
    requires Harmless(a, k, pc)
    ensures Harmless(b, k, pc)
  {
    hide List, SeesClusters;
    IdsPrefix(List(a.store), List(b.store));
  }

  lemma FoundStable(a: Store, b: Store, o: ProviderInstance)
    requires List(a) <= List(b) && Found(List(a), o)
    ensures Found(List(b), o)
  {
    hide List, InstanceInfo.Info;
    LookupStable(List(a), List(b), o.status.instanceID);
  }

  /** The next point of a reconcile that may see the found cluster only. */
  lemma HarmlessNext(sh: Shared, k: Key, base: nat, o: ProviderInstance, at: InstanceAt, reply: Reply, now: nat)
    requires var h := Hist(sh.instances, k);
             LiveAt(h, base) && base == |h| - 1 && Found(List(sh.store), h[base].obj)
    requires ThreadOK(sh, InInstance(k, base, o, at)) && Harmless(sh, k, InInstance(k, base, o, at))
    requires CalmReply(sh, o, at, reply)
    ensures Harmless(sh, k, InstanceNext(k, base, o, at, reply, now))
  {
    hide InstanceInfo.Info, SetStatusCondition, BeginCreate, Made;
    var id := Hist(sh.instances, k)[base].obj.status.instanceID;
    var ids := Ids(List(sh.store));
    match at
    case GetHeader =>
      UnlistedIndex(List(sh.store), id);
      assert ids[..|ids|] == ids;
    case GetScan(hdr, i) => ScanIsNotOver(sh.store, hdr, i, id);
    case _ =>
  }

  /** What such a reconcile writes is what is stored. */
  lemma HarmlessWrite(sh: Shared, k: Key, base: nat, o: ProviderInstance, at: InstanceAt, env: Env)
    requires var h := Hist(sh.instances, k);
             |h| == 2 && h[1].Live? && Found(List(sh.store), h[1].obj)
    requires ThreadOK(sh, InInstance(k, base, o, at)) && QuietThread(sh, k, InInstance(k, base, o, at))
    requires Harmless(sh, k, InInstance(k, base, o, at)) && WritesStatus(at)
    ensures Hist(UpdateInstance(sh, k, base, o.status, env).0.instances, k) == Hist(sh.instances, k)
  {
    hide InstanceInfo.Info, List, Says, CreateFailure, Lookup, Made;
    var h := Hist(sh.instances, k);
    assert base == 1 ==> at.ReadyStatus? && o.status == h[1].obj.status;
    assert base == 1 ==> h[base].obj.(status := o.status) == h[base].obj;
  }

  lemma ThreadStepStaysFound(s: State, t: Tid, env: Env, k: Key)
    requires Inv(s) && Quiet(s, k) && Calm(s, Thread(t, env), k) && FoundAtOnce(s, k)
    ensures Hist(ThreadStep(s, t, env).sh.instances, k) == Hist(s.sh.instances, k)
    ensures FoundAtOnce(ThreadStep(s, t, env), k)
  {
    hide Serve, Next, RequestOf, Enabled, SharedOK, ThreadOK, QuietThread, Stage, Calm, Grows, Found, Harmless,
      CalmReply, InstanceNext, UpdateInstance, Fits;
    var pc := PcOf(s, t);
    var req := RequestOf(pc);
    if Enabled(s.sh, req) {
      var (after, reply) := Serve(s.sh, req, env);
      ServeOnlyAdds(s.sh, req, env);
      ServeGrows(s.sh, req, env);
      FoundStable(s.sh.store, after.store, Hist(s.sh.instances, k)[1].obj);
      if pc.InInstance? && pc.key == k {
        assert ThreadOK(s.sh, pc) && QuietThread(s.sh, k, pc) && Harmless(s.sh, k, pc);
        OwnStepStaysFound(s, t, env, k);
      } else {
        OthersLeaveItAlone(s.sh, pc, env, k);
        NewcomersAreHarmless(after, pc, reply, env.now, k);
      }
      forall u | u in s.threads
        ensures Harmless(after, k, s.threads[u])
      {
        HarmlessStable(s.sh, after, k, s.threads[u]);
      }
    }
  }

  /** A reconcile begins harmless. */
  lemma NewcomersAreHarmless(sh: Shared, pc: Pc, reply: Reply, now: nat, k: Key)
    requires !(pc.InInstance? && pc.key == k)
    ensures Harmless(sh, k, Next(pc, reply, now))
  {
    hide InstanceNext, InventoryNext, ConnectionNext, List;
  }

  lemma OwnStepStaysFound(s: State, t: Tid, env: Env, k: Key)
    requires Inv(s) && Quiet(s, k) && Calm(s, Thread(t, env), k) && FoundAtOnce(s, k)
    requires PcOf(s, t).InInstance? && PcOf(s, t).key == k && Enabled(s.sh, RequestOf(PcOf(s, t)))
    ensures var (after, reply) := Serve(s.sh, RequestOf(PcOf(s, t)), env);
            && Hist(after.instances, k) == Hist(s.sh.instances, k)
            && Harmless(after, k, Next(PcOf(s, t), reply, env.now))
  {
    hide Serve, Next, RequestOf, Enabled, SharedOK, ThreadOK, QuietThread, Stage, Calm, Grows, Found, Harmless,
      CalmReply, InstanceNext, UpdateInstance;
    var pc := PcOf(s, t);
    var req := RequestOf(pc);
    var (after, reply) := Serve(s.sh, req, env);
    assert ThreadOK(s.sh, pc) && QuietThread(s.sh, k, pc) && Harmless(s.sh, k, pc);
    assert !pc.atInstance.ReadyRetryStatus? && !pc.atInstance.DetailsErrorStatus? by { PlainWriter(s.sh, k, pc); }
    ServeIsCalm(s, t, env, k);
    NextOfInstance(pc, reply, env.now);
    if WritesStatus(pc.atInstance) {
      assert reply.Written? || reply.Conflict? by { CalmWrite(after, pc, reply); }
      WriterReturns(pc, reply, env.now);
      UpdateIsServed(s.sh, req, env);
      HarmlessWrite(s.sh, k, pc.base, pc.instance, pc.atInstance, env);
      OutsideIsHarmless(after, k, Next(pc, reply, env.now));
    } else {
      ReaderAsks(pc);
      OnlyStatusWrites(s.sh, req, env);
      ServeGrows(s.sh, req, env);
      ThreadStable(s.sh, after, pc);
      ServeOnlyAdds(s.sh, req, env);
      HarmlessStable(s.sh, after, k, pc);
      FoundStable(s.sh.store, after.store, Hist(s.sh.instances, k)[1].obj);
      SameBase(k, pc.base, pc.instance, pc.atInstance, reply, env.now);
      if pc.base == 1 {
        HarmlessNext(after, k, pc.base, pc.instance, pc.atInstance, reply, env.now);
      } else {
        OutsideIsHarmless(after, k, Next(pc, reply, env.now));
      }
    }
  }

  lemma PlainWriter(sh: Shared, k: Key, pc: Pc)
    requires ThreadOK(sh, pc) && QuietThread(sh, k, pc) && pc.InInstance? && pc.key == k
    ensures !pc.atInstance.ReadyRetryStatus? && !pc.atInstance.DetailsErrorStatus?
  {
    hide LatestOK, List, Made;
  }

  lemma CalmWrite(sh: Shared, pc: Pc, reply: Reply)
    requires pc.InInstance? && WritesStatus(pc.atInstance) && CalmReply(sh, pc.instance, pc.atInstance, reply)
    ensures reply.Written? || reply.Conflict?
  {
  }

  lemma OutsideIsHarmless(sh: Shared, k: Key, pc: Pc)
    requires !(pc.InInstance? && pc.key == k) || pc.base != |Hist(sh.instances, k)| - 1
    ensures Harmless(sh, k, pc)
  {
  }

  lemma StepStaysFound(s: State, a: Action, k: Key)
    requires Inv(s) && Quiet(s, k) && Calm(s, a, k) && FoundAtOnce(s, k)
    ensures Hist(Step(s, a).sh.instances, k) == Hist(s.sh.instances, k)
    ensures FoundAtOnce(Step(s, a), k)
  {
    hide Inv, ThreadStep, UserStep, StoreStep, Harmless, Found, Stage, QuietThread;
    match a
    case Spawn(t, start) =>
      if Starting(start) {
        OutsideIsHarmless(s.sh, k, start);
      }
    case Thread(t, env) =>
      hide FoundAtOnce, Quiet, Calm;
      ThreadStepStaysFound(s, t, env, k);
    case Worker(w) =>
      if !w.AddSend? {
        StoreOnlyAdds(s.sh.store, w);
        SharedStaysFound(s, s.sh.(store := StoreStep(s.sh.store, w)), k);
      }
    case User(u) =>
      UserQuiet(s, u, k);
      D.UsersAreApart(s.sh, u);
      SameOnlyAdds(s.sh.store);
      SharedStaysFound(s, UserStep(s.sh, u), k);
  }

  lemma SharedStaysFound(s: State, after: Shared, k: Key)
    requires FoundAtOnce(s, k)
    requires OnlyAdds(s.sh.store, after.store) && Hist(after.instances, k) == Hist(s.sh.instances, k)
    ensures FoundAtOnce(s.(sh := after), k)
  {
    hide Harmless, Found;
    FoundStable(s.sh.store, after.store, Hist(s.sh.instances, k)[1].obj);
    forall u | u in s.threads
      ensures Harmless(after, k, s.threads[u])
    {
      HarmlessStable(s.sh, after, k, s.threads[u]);
    }
  }

  lemma StepStaysFixed(s: State, a: Action, k: Key)
    requires Inv(s) && Quiet(s, k) && Calm(s, a, k) && Fixed(s, k)
    ensures Hist(Step(s, a).sh.instances, k) == Hist(s.sh.instances, k) && Fixed(Step(s, a), k)
  {
    hide Inv, Quiet, Calm, Step, Settled, FoundAtOnce;
    if Settled(Hist(s.sh.instances, k)) {
      StepQuiet(s, a, k);
    } else {
      StepStaysFound(s, a, k);
    }
  }

  lemma CalmStepDeletesNothing(s: State, a: Action, k: Key)
    requires Calm(s, a, k)
    ensures NoDelete(a)
  {
  }

  /** Calm runs keep the invariants, and what is fixed. */
  lemma {:induction false} CalmKeeps(s: State, actions: seq<Action>, k: Key)
    requires Inv(s) && Quiet(s, k) && CalmFrom(s, actions, k)
    ensures Inv(Run(s, actions)) && Quiet(Run(s, actions), k)
    ensures Fixed(s, k) ==>
              Fixed(Run(s, actions), k) && Hist(Run(s, actions).sh.instances, k) == Hist(s.sh.instances, k)
    decreases |actions|
  {
    hide Inv, Quiet, Calm, Step, Fixed, CalmFrom;
    if actions == [] {
    } else {
      var n := |actions| - 1;
      CalmByStep(s, actions, k);
      CalmKeeps(s, actions[..n], k);
      var before := Run(s, actions[..n]);
      CalmStepDeletesNothing(before, actions[n], k);
      StepKeeps(before, actions[n]);
      StepQuiet(before, actions[n], k);
      if Fixed(s, k) {
        StepStaysFixed(before, actions[n], k);
      }
    }
  }

  // ------------------------------------------------------- reconciles undisturbed

  predicate IsLatest(h: History<ProviderInstance>, v: nat) {
    v == |h| - 1 && h[v].Live?
  }

  /** The history once an object has been stored over its latest version. */
  function Stored(h: History<ProviderInstance>, o: ProviderInstance): (after: History<ProviderInstance>)
    requires h != []
    ensures after == h <==> h[|h| - 1] == Live(o)
  {
    if h[|h| - 1] == Live(o) then h else h + [Live(o)]
  }

  /** What a get makes of the latest version. */
  function Gotten(list: seq<Cluster>, o: ProviderInstance): ProviderInstance {
    var pending := WithPhase(o, Pending);
    match Lookup(list, o.status.instanceID)
    case None => WithInstanceCondition(pending, ConditionFalse, BACKEND_ERROR, NOT_FOUND, 0)
    case Some(c) => WithPhase(WithDetails(pending, c), Ready)
  }

  lemma UpdateLatest(sh: Shared, k: Key, v: nat, o: ProviderInstance)
    requires var h := Hist(sh.instances, k); IsLatest(h, v) && o.spec == h[v].obj.spec
    ensures var (after, reply) := UpdateInstance(sh, k, v, o.status, Fine(0));
            after == sh.(instances := sh.instances[k := Stored(Hist(sh.instances, k), o)]) && reply.Written?
  {
    assert Hist(sh.instances, k)[v].obj.(status := o.status) == o;
  }

  lemma WriteOnLatest(s: State, t: Tid, k: Key, v: nat, o: ProviderInstance, at: InstanceAt)
    requires IsLatest(Hist(s.sh.instances, k), v) && o.spec == Hist(s.sh.instances, k)[v].obj.spec
    requires (at.ErrorStatus? || at.ReadyStatus?) && PcOf(s, t) == InInstance(k, v, o, at)
    ensures var after := Step(s, Thread(t, Fine(0)));
            && after.sh == s.sh.(instances := s.sh.instances[k := Stored(Hist(s.sh.instances, k), o)])
            && after.threads == s.threads[t := PcOf(after, t)] && PcOf(after, t).Returned?
  {
    hide Step, InstanceNext, UpdateInstance, Stored;
    Write(s, t, k, v, o, at, Fine(0));
    UpdateLatest(s.sh, k, v, o);
    var reply := UpdateInstance(s.sh, k, v, o.status, Fine(0)).1;
    WriterReturns(InInstance(k, v, o, at), reply, 0);
    NextOfInstance(InInstance(k, v, o, at), reply, 0);
  }

  /** The last write of a reconcile that read the latest version. */
  lemma WritesLatest(
    s: State, t: Tid, k: Key, v: nat, o: ProviderInstance, at: InstanceAt, c: Key)
    returns (after: State)
    requires IsLatest(Hist(s.sh.instances, k), v) && o.spec == Hist(s.sh.instances, k)[v].obj.spec
    requires at.ErrorStatus? || at.ReadyStatus?
    ensures Leads(With(s, t, InInstance(k, v, o, at)), after, c, 0)
    ensures after.sh == s.sh.(instances := s.sh.instances[k := Stored(Hist(s.sh.instances, k), o)])
    ensures after.threads == s.threads[t := PcOf(after, t)] && PcOf(after, t).Returned?
  {
    hide Leads, Step, Stored, Calm;
    var here := InInstance(k, v, o, at);
    WithTwice(s, t, here, here);
    FineIsCalm(With(s, t, here), t, 0, c);
    LeadsByStep(With(s, t, here), Thread(t, Fine(0)), c);
    WriteOnLatest(With(s, t, here), t, k, v, o, at);
    after := Step(With(s, t, here), Thread(t, Fine(0)));
  }

  /** A reconcile that read the latest version, whose instance has an ID. */
  lemma SoloGet(s: State, t: Tid, k: Key, v: nat, iv: nat, c: Key) returns (after: State)
    requires Resting(PcOf(s, t)) && IsLatest(Hist(s.sh.instances, k), v)
    requires Hist(s.sh.instances, k)[v].obj.status.instanceID != ""
    requires LiveAt(Hist(s.sh.inventories, Hist(s.sh.instances, k)[v].obj.spec.inventoryRef), iv)
    ensures Leads(s, after, c, 1)
    ensures after.sh == s.sh.(instances := s.sh.instances[k :=
              Stored(Hist(s.sh.instances, k), Gotten(List(s.sh.store), Hist(s.sh.instances, k)[v].obj))])
    ensures after.threads == s.threads[t := PcOf(after, t)] && PcOf(after, t).Returned?
  {
    hide Leads, Step, List, WithInstanceCondition, WithDetails, Stored;
    var o, hdr := Hist(s.sh.instances, k)[v].obj, s.sh.store.hdr;
    var list, pending := List(s.sh.store), WithPhase(o, Pending);
    var n := FirstIndex(list, o.status.instanceID);
    var opening := InInstance(k, v, pending, OpenInstanceCloud);
    var looking := InInstance(k, v, pending, GetHeader);
    var scanning := InInstance(k, v, pending, GetScan(hdr, 0));
    var scanned := InInstance(k, v, pending, GetScan(hdr, n));
    Approach(s, t, k, v, iv, c);
    WithTwice(s, t, opening, looking);
    Open(With(s, t, opening), t, k, v, pending);
    Moves(s, t, opening, looking, 0, c);
    LeadsOn(s, With(s, t, opening), With(s, t, looking), c, 1, 0);
    WithTwice(s, t, looking, scanning);
    LookToGet(With(s, t, looking), t, k, v, pending);
    Moves(s, t, looking, scanning, 0, c);
    LeadsOn(s, With(s, t, looking), With(s, t, scanning), c, 1, 0);
    HeaderSees(s.sh.store);
    GetScans(s, t, k, v, pending, hdr, 0, n, c);
    LeadsOn(s, With(s, t, scanning), With(s, t, scanned), c, 1, 0);
    var at := if n < |list| then ReadyStatus else ErrorStatus(NOT_FOUND);
    var last := InInstance(k, v, Gotten(list, o), at);
    WithTwice(s, t, scanned, last);
    if n < |list| {
      GetHit(With(s, t, scanned), t, k, v, pending, n);
    } else {
      GetMiss(With(s, t, scanned), t, k, v, pending, hdr);
    }
    Moves(s, t, scanned, last, 0, c);
    LeadsOn(s, With(s, t, scanned), With(s, t, last), c, 1, 0);
    GottenSpec(list, o);
    after := WritesLatest(s, t, k, v, Gotten(list, o), at, c);
    LeadsOn(s, With(s, t, last), after, c, 1, 0);
  }

  lemma GottenSpec(list: seq<Cluster>, o: ProviderInstance)
    ensures Gotten(list, o).spec == o.spec
  {
  }

  /** A reconcile that read the first version: whatever comes of its create, it writes a status. */
  lemma SoloCreate(s: State, t: Tid, k: Key, v: nat, iv: nat, c: Key) returns (after: State)
    requires Resting(PcOf(s, t)) && IsLatest(Hist(s.sh.instances, k), v)
    requires Hist(s.sh.instances, k)[v].obj.status == EMPTY_INSTANCE_STATUS
    requires LiveAt(Hist(s.sh.inventories, Hist(s.sh.instances, k)[v].obj.spec.inventoryRef), iv)
    ensures Leads(s, after, c, 1)
    ensures |Hist(after.sh.instances, k)| == |Hist(s.sh.instances, k)| + 1 && after.sh.inventories == s.sh.inventories
    ensures after.threads == s.threads[t := PcOf(after, t)] && PcOf(after, t).Returned?
  {
    hide Leads, Step, List, WithInstanceCondition, WithDetails, Wanted, HasSuffix, Parameter;
    var o := Hist(s.sh.instances, k)[v].obj;
    var creating := WithPhase(o, Creating);
    PhaseAside(o, Pending, Creating);
    if Parameter(o, NAME_PARAMETER) == "" || HasSuffix(Parameter(o, NAME_PARAMETER), INVALID_SUFFIX) {
      var message := if Parameter(o, NAME_PARAMETER) == "" then NAME_REQUIRED else CREATION_FAILED;
      var opening := InInstance(k, v, WithPhase(o, Pending), OpenInstanceCloud);
      var failing := FailInstance(k, v, creating, BACKEND_ERROR, message, 0);
      Approach(s, t, k, v, iv, c);
      WithTwice(s, t, opening, failing);
      Open(With(s, t, opening), t, k, v, WithPhase(o, Pending));
      PhaseAside(o, Creating, Creating);
      Moves(s, t, opening, failing, 0, c);
      LeadsOn(s, With(s, t, opening), With(s, t, failing), c, 1, 0);
      after := FailsToCreate(s, t, k, v, message, c);
    } else {
      var list, want := List(s.sh.store), Wanted(o);
      var n := FirstIndex(list, want.id);
      var scanned := InInstance(k, v, creating, CreateScan(want, s.sh.store.hdr, n));
      WalksThroughScan(s, t, k, v, iv, c);
      HeaderSees(s.sh.store);
      if n < |list| {
        var failing := FailInstance(k, v, creating, BACKEND_ERROR, ALREADY_EXISTS, 0);
        WithTwice(s, t, scanned, failing);
        CreateScanStep(With(s, t, scanned), t, k, v, creating, want, s.sh.store.hdr, n);
        Moves(s, t, scanned, failing, 0, c);
        LeadsOn(s, With(s, t, scanned), With(s, t, failing), c, 1, 0);
        after := FailsToCreate(s, t, k, v, ALREADY_EXISTS, c);
      } else {
        WantedHasID(o);
        after := SendsAndWrites(s, t, k, v, want, c);
      }
    }
  }

  /** From the failure of a create to the end. */
  lemma FailsToCreate(s: State, t: Tid, k: Key, v: nat, message: string, c: Key) returns (after: State)
    requires IsLatest(Hist(s.sh.instances, k), v)
    requires Hist(s.sh.instances, k)[v].obj.status == EMPTY_INSTANCE_STATUS
    requires var creating := WithPhase(Hist(s.sh.instances, k)[v].obj, Creating);
             Leads(s, With(s, t, FailInstance(k, v, creating, BACKEND_ERROR, message, 0)), c, 1)
    ensures Leads(s, after, c, 1)
    ensures |Hist(after.sh.instances, k)| == |Hist(s.sh.instances, k)| + 1 && after.sh.inventories == s.sh.inventories
    ensures after.threads == s.threads[t := PcOf(after, t)] && PcOf(after, t).Returned?
  {
    hide Leads, SetStatusCondition;
    var creating := WithPhase(Hist(s.sh.instances, k)[v].obj, Creating);
    var failed := WithInstanceCondition(creating, ConditionFalse, BACKEND_ERROR, message, 0);
    after := WritesLatest(s, t, k, v, failed, ErrorStatus(message), c);
    LeadsOn(s, With(s, t, FailInstance(k, v, creating, BACKEND_ERROR, message, 0)), after, c, 1, 0);
  }

  /** From the end of an unsuccessful search to the end, with room made for the send. */
  lemma SendsAndWrites(s: State, t: Tid, k: Key, v: nat, want: Cluster, c: Key) returns (after: State)
    requires IsLatest(Hist(s.sh.instances, k), v) && want.id != ""
    requires Hist(s.sh.instances, k)[v].obj.status == EMPTY_INSTANCE_STATUS
    requires var creating := WithPhase(Hist(s.sh.instances, k)[v].obj, Creating);
             Leads(s, With(s, t, InInstance(k, v, creating,
                   CreateScan(want, s.sh.store.hdr, s.sh.store.hdr.len))), c, 1)
    ensures Leads(s, after, c, 1)
    ensures |Hist(after.sh.instances, k)| == |Hist(s.sh.instances, k)| + 1 && after.sh.inventories == s.sh.inventories
    ensures after.threads == s.threads[t := PcOf(after, t)] && PcOf(after, t).Returned?
  {
    hide Leads, Step, WithDetails, InstanceInfo.Info, Accept;
    var creating := WithPhase(Hist(s.sh.instances, k)[v].obj, Creating);
    var scanned := InInstance(k, v, creating, CreateScan(want, s.sh.store.hdr, s.sh.store.hdr.len));
    var roomy := MakeRoom(With(s, t, scanned), c);
    LeadsOn(s, With(s, t, scanned), roomy, c, 1, 0);
    Send(roomy, t, k, v, creating, want, s.sh.store.hdr);
    FineIsCalm(roomy, t, 0, c);
    var ready := WithPhase(WithDetails(creating, want), Ready);
    var sent := State(Accept(roomy.sh, want, k), roomy.threads[t := InInstance(k, v, ready, ReadyStatus)]);
    LeadsOnByStep(s, roomy, Thread(t, Fine(0)), sent, c, 1);
    AcceptLeavesObjects(roomy.sh, want, k);
    ReadyIsNew(creating, want);
    var calm := sent.(threads := s.threads);
    assert sent == With(calm, t, InInstance(k, v, ready, ReadyStatus));
    after := WritesLatest(calm, t, k, v, ready, ReadyStatus, c);
    LeadsOn(s, sent, after, c, 1, 0);
  }

  lemma AcceptLeavesObjects(sh: Shared, want: Cluster, k: Key)
    ensures var after := Accept(sh, want, k);
            after.instances == sh.instances && after.inventories == sh.inventories
  {
  }

  lemma ReadyIsNew(o: ProviderInstance, want: Cluster)
    ensures var ready := WithPhase(WithDetails(o, want), Ready);
            ready.spec == o.spec && ready.status.phase.Ready?
  {
  }

  // ----------------------------------------------------------- reaching the fixpoint

  lemma {:induction false} FreshThread(taken: set<Tid>) returns (t: Tid)
    ensures t !in taken && forall u :: u in taken ==> u < t
    decreases |taken|
  {
    if taken == {} {
      t := 0;
    } else {
      var u :| u in taken;
      var rest := FreshThread(taken - {u});
      assert taken == (taken - {u}) + {u};
      t := if rest <= u then u + 1 else rest;
    }
  }

  /** An inventory that was never applied can be. */
  lemma HaveInventory(s: State, ref: Key, c: Key) returns (after: State, iv: nat)
    ensures Leads(s, after, c, 0)
    ensures after == s.(sh := s.sh.(inventories := after.sh.inventories))
    ensures LiveAt(Hist(after.sh.inventories, ref), iv)
  {
    hide Leads;
    var h := Hist(s.sh.inventories, ref);
    LeadsNowhere(s, c);
    if h != [] && h[|h| - 1].Live? {
      after, iv := s, |h| - 1;
    } else {
      var apply := User(ApplyInventory(ref, InventorySpec("")));
      after, iv := Step(s, apply), |h|;
      LeadsOnByStep(s, s, apply, after, c, 0);
    }
  }

  /** A goroutine that is about to report the found cluster missing does so. */
  lemma FinishStale(s: State, t: Tid, k: Key) returns (after: State)
    requires Inv(s) && t in s.threads && !Harmless(s.sh, k, s.threads[t])
    requires var h := Hist(s.sh.instances, k); |h| == 2 && h[1].Live? && Found(List(s.sh.store), h[1].obj)
    ensures Leads(s, after, k, 0)
    ensures |Hist(after.sh.instances, k)| == 3 && after.sh.store == s.sh.store
  {
    hide Leads, SharedOK, SetStatusCondition, Found, Made, Step;
    var pc, list := s.threads[t], List(s.sh.store);
    var id := Hist(s.sh.instances, k)[1].obj.status.instanceID;
    assert ThreadOK(s.sh, pc);
    assert s == With(s, t, pc);
    FoundIsReady(list, Hist(s.sh.instances, k)[1].obj);
    LeadsNowhere(s, k);
    if pc.atInstance.ErrorStatus? {
      after := WritesLatest(s, t, k, 1, pc.instance, pc.atInstance, k);
    } else {
      var o, h := pc.instance, pc.atInstance.h;
      var scanned := InInstance(k, 1, o, GetScan(h, h.len));
      var missing := FailInstance(k, 1, o, BACKEND_ERROR, NOT_FOUND, 0);
      assert forall j :: 0 <= j < h.len ==> Ids(list)[..h.len][j] == list[j].id;
      GetScans(s, t, k, 1, o, h, pc.atInstance.i, h.len, k);
      WithTwice(s, t, scanned, missing);
      GetMiss(With(s, t, scanned), t, k, 1, o, h);
      Moves(s, t, scanned, missing, 0, k);
      LeadsOn(s, With(s, t, scanned), With(s, t, missing), k, 0, 0);
      after := WritesLatest(s, t, k, 1, missing.instance, missing.atInstance, k);
      LeadsOn(s, With(s, t, missing), after, k, 0, 0);
    }
  }

  lemma LeadsKeeps(s: State, after: State, k: Key, n: nat)
    requires Inv(s) && Quiet(s, k) && Leads(s, after, k, n)
    ensures Inv(after) && Quiet(after, k)
  {
    hide Inv, Quiet, CalmFrom, Run, Starts;
    var actions :| CalmFrom(s, actions, k) && Run(s, actions) == after && Starts(actions) <= n;
    CalmKeeps(s, actions, k);
  }

  /** A reconcile by a new goroutine, with the inventory it needs. */
  lemma FreshGet(s: State, k: Key) returns (after: State)
    requires var h := Hist(s.sh.instances, k); h != [] && h[|h| - 1].Live? && h[|h| - 1].obj.status.instanceID != ""
    ensures Leads(s, after, k, 1)
    ensures var h := Hist(s.sh.instances, k);
            Hist(after.sh.instances, k) == Stored(h, Gotten(List(s.sh.store), h[|h| - 1].obj))
  {
    hide Leads, Stored, Gotten;
    var h := Hist(s.sh.instances, k);
    var t := FreshThread(s.threads.Keys);
    var ready, iv := HaveInventory(s, h[|h| - 1].obj.spec.inventoryRef, k);
    after := SoloGet(ready, t, k, |h| - 1, iv, k);
    LeadsOn(s, ready, after, k, 0, 1);
  }

  lemma FreshCreate(s: State, k: Key) returns (after: State)
    requires Inv(s)
    requires var h := Hist(s.sh.instances, k); |h| == 1 && h[0].Live? && h[0].obj.status == EMPTY_INSTANCE_STATUS
    ensures Leads(s, after, k, 1)
    ensures |Hist(after.sh.instances, k)| == 2
    ensures forall u :: u in after.threads ==> Harmless(after.sh, k, after.threads[u])
  {
    hide Leads, Harmless, SharedOK, InstanceThreadOK;
    var h := Hist(s.sh.instances, k);
    var t := FreshThread(s.threads.Keys);
    var ready, iv := HaveInventory(s, h[0].obj.spec.inventoryRef, k);
    after := SoloCreate(ready, t, k, 0, iv, k);
    LeadsOn(s, ready, after, k, 0, 1);
    forall u | u in after.threads
      ensures Harmless(after.sh, k, after.threads[u])
    {
      assert u in s.threads ==> ThreadOK(s.sh, s.threads[u]);
      OutsideIsHarmless(after.sh, k, after.threads[u]);
    }
  }

  /** With everything accepted listed, so is every stored ID. */
  lemma DrainedIsListed(s: State, k: Key)
    requires Inv(s) && s.sh.store.addHand.None? && s.sh.store.addBuf == []
    requires var h := Hist(s.sh.instances, k); h != [] && h[|h| - 1].Live? && h[|h| - 1].obj.status.instanceID != ""
    ensures var h := Hist(s.sh.instances, k); Lookup(List(s.sh.store), h[|h| - 1].obj.status.instanceID).Some?
  {
    hide PhaseOK, ThreadOK, InventoriesOK, ConnectionsOK;
    var h := Hist(s.sh.instances, k);
    assert InstanceHistoryOK(s.sh.log, k, h);
    assert InstanceVersionOK(s.sh.log, k, Previous(h, |h| - 1), h[|h| - 1].obj);
    MadeIsAccepted(s.sh, k, h[|h| - 1].obj.status.instanceID);
    assert Pipeline(s.sh.store) == List(s.sh.store);
    UnlistedIndex(List(s.sh.store), h[|h| - 1].obj.status.instanceID);
  }

  /** A get that finds another status than the stored one stores a new version, and is Ready if it finds a cluster. */
  lemma GottenIsNew(list: seq<Cluster>, o: ProviderInstance)
    requires (HasID(o) && !Found(list, o)) || (Waiting(o) && Lookup(list, o.status.instanceID).Some?)
    ensures Gotten(list, o) != o
    ensures Lookup(list, o.status.instanceID).Some? ==> Gotten(list, o).status.phase.Ready?
  {
    hide InstanceInfo.Info, Lookup, SetStatusCondition, Says;
  }

  lemma FromThird(s: State, k: Key) returns (after: State)
    requires Inv(s) && Quiet(s, k) && |Hist(s.sh.instances, k)| == 3
    ensures Leads(s, after, k, 1) && Fixed(after, k)
  {
    hide Leads, Inv, Found, Waiting, Gotten, QuietThread, FoundAtOnce;
    var h := Hist(s.sh.instances, k);
    LeadsNowhere(s, k);
    if Found(List(s.sh.store), h[2].obj) {
      assert h[2].obj.status.phase.Ready? by { FoundIsReady(List(s.sh.store), h[2].obj); }
      after := s;
      LeadsMore(s, after, k, 0, 1);
    } else {
      var drained := DrainsAll(s, s, k);
      LeadsKeeps(s, drained, k, 0);
      WaitingHasID(h[2].obj);
      DrainedIsListed(drained, k);
      GottenIsNew(List(drained.sh.store), h[2].obj);
      after := FreshGet(drained, k);
      LeadsOn(s, drained, after, k, 0, 1);
    }
  }

  lemma FoundIsReady(list: seq<Cluster>, o: ProviderInstance)
    requires Found(list, o)
    ensures o.status.phase.Ready?
  {
  }

  lemma WaitingHasID(o: ProviderInstance)
    requires Waiting(o)
    ensures o.status.instanceID != ""
  {
  }

  lemma LeadsMore(a: State, b: State, k: Key, m: nat, n: nat)
    requires Leads(a, b, k, m) && m <= n
    ensures Leads(a, b, k, n)
  {
    hide CalmFrom, Run, Starts;
    var actions :| CalmFrom(a, actions, k) && Run(a, actions) == b && Starts(actions) <= m && AllHandsOff(actions);
    assert CalmFrom(a, actions, k) && Run(a, actions) == b && Starts(actions) <= n && AllHandsOff(actions);
  }

  lemma FromSecond(s: State, k: Key) returns (after: State)
    requires Inv(s) && Quiet(s, k) && |Hist(s.sh.instances, k)| == 2
    ensures Leads(s, after, k, 1) && Fixed(after, k)
  {
    hide Leads, Inv, Found, FailedCreate, Gotten, QuietThread, Harmless;
    var h := Hist(s.sh.instances, k);
    LeadsNowhere(s, k);
    if FailedCreate(List(s.sh.store), h[1].obj) {
      assert h[1].obj.status.phase.Creating? by { FailedIsCreating(List(s.sh.store), h[1].obj); }
      after := s;
      LeadsMore(s, after, k, 0, 1);
    } else {
      var drained := DrainsAll(s, s, k);
      LeadsKeeps(s, drained, k, 0);
      DrainedIsListed(drained, k);
      if !Found(List(drained.sh.store), h[1].obj) {
        GottenIsNew(List(drained.sh.store), h[1].obj);
        after := FreshGet(drained, k);
        LeadsOn(s, drained, after, k, 0, 1);
      } else if t :| t in drained.threads && !Harmless(drained.sh, k, drained.threads[t]) {
        var reported := FinishStale(drained, t, k);
        LeadsKeeps(drained, reported, k, 0);
        LeadsOn(s, drained, reported, k, 0, 0);
        after := FromThird(reported, k);
        LeadsOn(s, reported, after, k, 0, 1);
      } else {
        after := drained;
        LeadsMore(s, after, k, 0, 1);
      }
    }
  }

  lemma FailedIsCreating(list: seq<Cluster>, o: ProviderInstance)
    requires FailedCreate(list, o)
    ensures o.status.phase.Creating?
  {
  }

  /** From any calm state, at most two more reconciles bring the status to rest. */
  lemma SettlesInTwo(s: State, k: Key) returns (after: State)
    requires Inv(s) && Quiet(s, k) && Hist(s.sh.instances, k) != []
    ensures Leads(s, after, k, 2) && Fixed(after, k)
  {
    hide Leads, Inv, Found, FailedCreate, Waiting, QuietThread, FoundAtOnce, HasID;
    var h := Hist(s.sh.instances, k);
    if |h| == 1 {
      var second := FreshCreate(s, k);
      LeadsKeeps(s, second, k, 1);
      after := FromSecond(second, k);
      LeadsOn(s, second, after, k, 1, 1);
    } else if |h| == 2 {
      after := FromSecond(s, k);
      LeadsMore(s, after, k, 1, 2);
    } else if |h| == 3 {
      after := FromThird(s, k);
      LeadsMore(s, after, k, 1, 2);
    } else {
      FoundIsReady(List(s.sh.store), h[3].obj);
      LeadsNowhere(s, k);
      after := s;
      LeadsMore(s, after, k, 0, 2);
    }
  }

  /** While the status has not come to rest, some calm run of at most one new reconcile changes it. */
  lemma RestlessCanChange(s: State, k: Key) returns (after: State)
    requires Inv(s) && Quiet(s, k) && !Fixed(s, k)
    ensures Leads(s, after, k, 1)
    ensures Hist(after.sh.instances, k) != Hist(s.sh.instances, k)
  {
    hide Leads, Inv, Found, FailedCreate, Waiting, QuietThread, Harmless, Gotten;
    var h := Hist(s.sh.instances, k);
    LeadsNowhere(s, k);
    if h == [] {
      var apply := User(ApplyInstance(k, InstanceSpec(k, map[])));
      after := Step(s, apply);
      LeadsOnByStep(s, s, apply, after, k, 0);
      LeadsMore(s, after, k, 0, 1);
    } else if |h| == 1 {
      after := FreshCreate(s, k);
    } else if |h| == 2 {
      if FailedCreate(List(s.sh.store), h[1].obj) {
        FailedIsCreating(List(s.sh.store), h[1].obj);
      } else if !Found(List(s.sh.store), h[1].obj) {
        GottenIsNew(List(s.sh.store), h[1].obj);
        after := FreshGet(s, k);
      } else {
        var t :| t in s.threads && !Harmless(s.sh, k, s.threads[t]);
        after := FinishStale(s, t, k);
        LeadsMore(s, after, k, 0, 1);
      }
    } else {
      if Found(List(s.sh.store), h[|h| - 1].obj) {
        FoundIsReady(List(s.sh.store), h[|h| - 1].obj);
      } else {
        var drained := DrainsAll(s, s, k);
        LeadsKeeps(s, drained, k, 0);
        WaitingHasID(h[2].obj);
        DrainedIsListed(drained, k);
        GottenIsNew(List(drained.sh.store), h[2].obj);
        after := FreshGet(drained, k);
        LeadsOn(s, drained, after, k, 0, 1);
      }
    }
  }

  // ------------------------------------------------------------------ the theorems

  /**
   In calm runs, an instance's history will never change again exactly when it is fixed: its create
   has failed for good, or a lookup finds its cluster as stored and no scan under way can miss it.
   */
  lemma FixedIffNothingChanges(first: seq<Action>, k: Key)
    requires CalmRun(first, k)
    ensures var s := Run(INITIAL, first);
            Fixed(s, k) <==> forall more :: CalmFrom(s, more, k) ==>
                               Hist(Run(s, more).sh.instances, k) == Hist(s.sh.instances, k)
  {
    hide Run, NoDeletes, Fixed, CalmFrom, INITIAL, Inv, Quiet, Starts;
    var s := Run(INITIAL, first);
    CalmDeletesNothing(INITIAL, first, k);
    RunKeeps(first);
    CalmRunsAreQuiet(first, k);
    if Fixed(s, k) {
      forall more | CalmFrom(s, more, k)
        ensures Hist(Run(s, more).sh.instances, k) == Hist(s.sh.instances, k)
      {
        CalmKeeps(s, more, k);
      }
    } else {
      var after := RestlessCanChange(s, k);
      var more :| CalmFrom(s, more, k) && Run(s, more) == after && Starts(more) <= 1;
      assert Hist(Run(s, more).sh.instances, k) != Hist(s.sh.instances, k);
    }
  }

  /** From every calm run, a calm continuation with at most two more reconciles reaches the fixpoint. */
  lemma FixpointIsReached(first: seq<Action>, k: Key) returns (more: seq<Action>)
    requires CalmRun(first, k) && Hist(Run(INITIAL, first).sh.instances, k) != []
    ensures CalmFrom(Run(INITIAL, first), more, k) && Starts(more) <= 2
    ensures Fixed(Run(Run(INITIAL, first), more), k)
  {
    hide Run, NoDeletes, Fixed, CalmFrom, INITIAL, Inv, Quiet, Starts;
    var s := Run(INITIAL, first);
    CalmDeletesNothing(INITIAL, first, k);
    RunKeeps(first);
    CalmRunsAreQuiet(first, k);
    var after := SettlesInTwo(s, k);
    more :| CalmFrom(s, more, k) && Run(s, more) == after && Starts(more) <= 2;
  }

  /** Once the status has come to rest, no reconcile in any calm continuation changes it. */
  lemma SettledIsAFixpoint(actions: seq<Action>, n: nat, k: Key)
    requires CalmRun(actions, k) && n <= |actions|
    requires Fixed(Run(INITIAL, actions[..n]), k)
    ensures Hist(Run(INITIAL, actions).sh.instances, k) == Hist(Run(INITIAL, actions[..n]).sh.instances, k)
  {
    hide Run, Fixed, CalmFrom, Inv, Quiet, NoDelete, INITIAL, Starts;
    var first, more := actions[..n], actions[n..];
    assert first + more == actions;
    CalmAppends(INITIAL, first, more, k);
    RunAppends(INITIAL, first, more);
    CalmDeletesNothing(INITIAL, first, k);
    RunKeeps(first);
    CalmRunsAreQuiet(first, k);
    CalmKeeps(Run(INITIAL, first), more, k);
  }
}
