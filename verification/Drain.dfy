/** A get that starts once the created cluster is listed finds it, whatever else is added meanwhile. */
module Drain {
  import opened Types
  import opened Conditions
  import opened ClusterStore
  import opened StoreLaws
  import InstanceInfo
  import opened Api
  import opened Reconcilers
  import opened Operator
  import opened Growth
  import opened Invariants
  import opened Safety
  import opened AddPipeline
  import opened Walks
  import D = Discovery
  import Q = Quiescence

  /** The reconcile is on its way to storing the cluster a lookup of its ID finds, or has tried to. */
  ghost predicate WillStore(s: Store, pc: Pc, c: Cluster) {
    match pc
    case InInstance(_, _, o, at) =>
      && o.status.instanceID == c.id
      && Lookup(List(s), c.id) == Some(c)
      && (match at
          case GetHeader => true
          case GetScan(h, _) => SeesClusters(s, h) && c.id in Ids(List(s))[..h.len]
          case ReadyStatus => o.status.phase.Ready? && o.status.instanceInfo == InstanceInfo.Info(c)
          case ReadyRetryStatus => o.status.phase.Ready? && o.status.instanceInfo == InstanceInfo.Info(c)
          case _ => false)
    case Returned(result) => result.Ok? || result.OkRequeue? || result.RequeueErr?
    case _ => false
  }

  lemma WillStoreStable(a: Store, b: Store, pc: Pc, c: Cluster)
    requires Q.OnlyAdds(a, b) && WillStore(a, pc, c)
    ensures WillStore(b, pc, c)
  {
    hide InstanceInfo.Info, SeesClusters, Lookup, List;
    if pc.InInstance? {
      Q.LookupStable(List(a), List(b), c.id);
      Q.IdsPrefix(List(a), List(b));
      Q.SeenIsListed(a);
    }
  }

  /** The reply to the next call, as the get reads it. */
  ghost predicate TrueReply(sh: Shared, pc: Pc, reply: Reply) {
    pc.InInstance? ==>
      match pc.atInstance
      case GetHeader => reply == Header(sh.store.hdr)
      case GetScan(h, i) => i < h.len && SeesClusters(sh.store, h) ==> reply == Element(List(sh.store)[i])
      case _ => true
  }

  lemma ServeIsTrue(sh: Shared, pc: Pc, env: Env)
    requires Enabled(sh, RequestOf(pc))
    ensures TrueReply(Serve(sh, RequestOf(pc), env).0, pc, Serve(sh, RequestOf(pc), env).1)
  {
    hide UpdateInstance, UpdateInventory, UpdateConnection, StoreSecret, StoreConfigMap, Accept, ReadArtefact;
  }

  lemma ScanWillStore(
    sh: Shared, k: Key, base: nat, o: ProviderInstance, h: Slice, i: nat, reply: Reply, now: nat, c: Cluster)
    requires ThreadOK(sh, InInstance(k, base, o, GetScan(h, i)))
    requires WillStore(sh.store, InInstance(k, base, o, GetScan(h, i)), c)
    requires TrueReply(sh, InInstance(k, base, o, GetScan(h, i)), reply)
    ensures WillStore(sh.store, InstanceNext(k, base, o, GetScan(h, i), reply, now), c)
  {
    hide InstanceInfo.Info, Made, SetStatusCondition, WithInstanceCondition, BeginCreate, List, Lookup;
    ScanIsNotOver(sh.store, h, i, c.id);
    if List(sh.store)[i].id == c.id {
      LookupIs(List(sh.store), c.id, i);
    }
  }

  lemma LookupIs(list: seq<Cluster>, id: string, i: nat)
    requires i < |list| && list[i].id == id && forall j :: 0 <= j < i ==> list[j].id != id
    ensures Lookup(list, id) == Some(list[i])
  {
    FirstIndexIs(list, id, i);
  }

  lemma NextWillStore(
    sh: Shared, k: Key, base: nat, o: ProviderInstance, at: InstanceAt, reply: Reply, now: nat, c: Cluster)
    requires ThreadOK(sh, InInstance(k, base, o, at)) && WillStore(sh.store, InInstance(k, base, o, at), c)
    requires TrueReply(sh, InInstance(k, base, o, at), reply)
    ensures WillStore(sh.store, InstanceNext(k, base, o, at, reply, now), c)
  {
    hide InstanceInfo.Info, SetStatusCondition, BeginCreate, ThreadOK, FailInstance, HaveCluster;
    match at
    case GetHeader =>
      hide Lookup;
      var ids := Ids(List(sh.store));
      assert ids[..|ids|] == ids;
      ListedByLookup(List(sh.store), c);
    case GetScan(h, i) => hide InstanceNext, WillStore, TrueReply; ScanWillStore(sh, k, base, o, h, i, reply, now, c);
    case _ => hide Lookup, SeesClusters, List;
  }

  lemma ListedByLookup(list: seq<Cluster>, c: Cluster)
    requires Lookup(list, c.id) == Some(c)
    ensures c.id in Ids(list)
  {
    assert Ids(list)[FirstIndex(list, c.id)] == c.id;
  }

  lemma ReturnedStays(s: Store, pc: Pc, reply: Reply, now: nat, c: Cluster)
    requires WillStore(s, pc, c) && !pc.InInstance?
    ensures WillStore(s, Next(pc, reply, now), c)
  {
  }

  lemma CallWillStore(s: State, t: Tid, env: Env, c: Cluster)
    requires Inv(s) && D.NoPendingUpdate(s.sh.store) && Enabled(s.sh, RequestOf(PcOf(s, t)))
    requires WillStore(s.sh.store, PcOf(s, t), c)
    ensures var after := ThreadStep(s, t, env);
            WillStore(after.sh.store, PcOf(after, t), c)
  {
    hide Serve, Next, RequestOf, Enabled, SharedOK, ThreadOK, WillStore, Grows, TrueReply, Q.OnlyAdds, InstanceNext;
    var pc := PcOf(s, t);
    var (after, reply) := Serve(s.sh, RequestOf(pc), env);
    Q.ServeOnlyAdds(s.sh, RequestOf(pc), env);
    WillStoreStable(s.sh.store, after.store, pc, c);
    if pc.InInstance? {
      ServeIsTrue(s.sh, pc, env);
      ServeGrows(s.sh, RequestOf(pc), env);
      ThreadStable(s.sh, after, pc);
      NextWillStore(after, pc.key, pc.base, pc.instance, pc.atInstance, reply, env.now, c);
      Q.NextOfInstance(pc, reply, env.now);
    } else {
      ReturnedStays(after.store, pc, reply, env.now, c);
    }
  }

  lemma StepWillStore(s: State, a: Action, t: Tid, c: Cluster)
    requires Inv(s) && D.NoPendingUpdate(s.sh.store) && D.AddsOnly(a) && !(a.Spawn? && a.t == t)
    requires WillStore(s.sh.store, PcOf(s, t), c)
    ensures D.NoPendingUpdate(Step(s, a).sh.store)
    ensures WillStore(Step(s, a).sh.store, PcOf(Step(s, a), t), c)
  {
    hide Inv, Serve, Next, RequestOf, Enabled, WillStore, UserStep, StoreStep, Q.OnlyAdds;
    match a
    case Spawn(_, _) =>
    case User(u) => D.UsersAreApart(s.sh, u);
    case Worker(w) =>
      if !w.AddSend? {
        Q.StoreOnlyAdds(s.sh.store, w);
        WillStoreStable(s.sh.store, StoreStep(s.sh.store, w), PcOf(s, t), c);
      }
    case Thread(u, env) =>
      if Enabled(s.sh, RequestOf(PcOf(s, u))) {
        Q.ServeOnlyAdds(s.sh, RequestOf(PcOf(s, u)), env);
        if u == t {
          CallWillStore(s, t, env, c);
        } else {
          WillStoreStable(s.sh.store, Step(s, a).sh.store, PcOf(s, t), c);
        }
      }
  }

  lemma {:induction false} RunWillStore(s: State, t: Tid, c: Cluster, actions: seq<Action>)
    requires Inv(s) && D.NoPendingUpdate(s.sh.store)
    requires WillStore(s.sh.store, PcOf(s, t), c)
    requires NoDeletes(actions) && D.NotRespawned(actions, t)
    requires forall i :: 0 <= i < |actions| ==> D.AddsOnly(actions[i])
    ensures D.NoPendingUpdate(Run(s, actions).sh.store)
    ensures WillStore(Run(s, actions).sh.store, PcOf(Run(s, actions), t), c)
    decreases |actions|
  {
    hide Inv, Step, WillStore, NoDelete, D.AddsOnly, D.NoPendingUpdate;
    if actions == [] {
    } else {
      var n := |actions| - 1;
      RunWillStore(s, t, c, actions[..n]);
      RunFromKeeps(s, actions[..n]);
      StepWillStore(Run(s, actions[..n]), actions[n], t, c);
    }
  }

  /**
   An instance whose cluster is listed, by the time its reconcile looks it up, gets no other answer:
   whatever is added while it looks, it never reports a missing cluster, what it goes on to store is
   Ready, the same ID and the info of the first cluster with that ID, and all it can return as an
   error is the failure of its own writes.
   */
  lemma GetAfterDrainFinds(first: seq<Action>, t: Tid, c: Cluster, actions: seq<Action>)
    requires NoDeletes(first) && NoDeletes(actions) && D.NotRespawned(actions, t)
    requires forall i :: 0 <= i < |actions| ==> D.AddsOnly(actions[i])
    requires var s := Run(INITIAL, first);
             && D.NoPendingUpdate(s.sh.store)
             && PcOf(s, t).InInstance? && PcOf(s, t).atInstance.GetHeader?
             && PcOf(s, t).instance.status.instanceID == c.id
             && Lookup(List(s.sh.store), c.id) == Some(c)
    ensures var pc := PcOf(Run(Run(INITIAL, first), actions), t);
            && (pc.InInstance? || pc.Returned?)
            && (pc.Returned? ==> pc.result.Ok? || pc.result.OkRequeue? || pc.result.RequeueErr?)
            && (pc.InInstance? ==>
              && !pc.atInstance.ErrorStatus?
              && pc.instance.status.instanceID == c.id
              && (pc.atInstance.ReadyStatus? ==>
                    pc.instance.status.phase.Ready? && pc.instance.status.instanceInfo == InstanceInfo.Info(c)))
  {
    hide Run, NoDeletes, Inv, D.NotRespawned, D.AddsOnly, Lookup, InstanceInfo.Info;
    RunKeeps(first);
    RunWillStore(Run(INITIAL, first), t, c, actions);
  }

  // -------------------------------------------------------- create, drain, get

  /** A goroutine at the end of its scan, with room for its send. */
  predicate MaySend(s: State, t: Tid) {
    && PcOf(s, t).InInstance? && PcOf(s, t).atInstance.CreateScan?
    && PcOf(s, t).atInstance.i == PcOf(s, t).atInstance.h.len
    && |s.sh.store.addBuf| < CAPACITY
  }

  lemma SentIsLast(s: State, t: Tid, env: Env)
    requires MaySend(s, t) && D.NoPendingUpdate(s.sh.store)
    ensures var after := Step(s, Thread(t, env)).sh.store;
            && Pipeline(after) == Pipeline(s.sh.store) + [PcOf(s, t).atInstance.want]
            && D.NoPendingUpdate(after)
  {
    hide Next;
    ListGrows(s.sh.store, AddSend(PcOf(s, t).atInstance.want));
  }

  predicate Holds(status: InstanceStatus, c: Cluster) {
    status.phase.Ready? && status.instanceID == c.id && status.instanceInfo == InstanceInfo.Info(c)
  }

  /** The history is as it was, or has one more version, which holds the cluster. */
  predicate AddsOnlyTheCluster(before: History<ProviderInstance>, after: History<ProviderInstance>, c: Cluster) {
    || after == before
    || (|after| == |before| + 1 && before <= after && after[|before|].Live? && Holds(after[|before|].obj.status, c))
  }

  /** A reconcile of k about to write, over a version that holds the cluster. */
  predicate Rewrites(pc: Pc, k: Key, h: History<ProviderInstance>, c: Cluster) {
    && pc.InInstance? && pc.key == k && pc.atInstance.ReadyStatus?
    && LiveAt(h, pc.base) && Holds(h[pc.base].obj.status, c)
  }

  lemma UpdateWithTheCluster(sh: Shared, k: Key, base: nat, o: ProviderInstance, at: InstanceAt, env: Env, c: Cluster)
    requires ThreadOK(sh, InInstance(k, base, o, at)) && Holds(o.status, c)
    ensures var h, after := Hist(sh.instances, k), Hist(UpdateInstance(sh, k, base, o.status, env).0.instances, k);
            && AddsOnlyTheCluster(h, after, c)
            && (Rewrites(InInstance(k, base, o, at), k, h, c) ==> after == h)
  {
    hide InstanceInfo.Info, Made, List, SeesIds;
    var h := Hist(sh.instances, k);
    assert Rewrites(InInstance(k, base, o, at), k, h, c) ==> h[base].obj.(status := o.status) == h[base].obj;
  }

  /** Whatever such a reconcile writes holds the cluster, and over a version that held it, nothing new. */
  lemma WritesTheCluster(s: State, t: Tid, env: Env, c: Cluster, k: Key)
    requires Inv(s) && WillStore(s.sh.store, PcOf(s, t), c)
    ensures var h, after := Hist(s.sh.instances, k), Hist(Step(s, Thread(t, env)).sh.instances, k);
            && AddsOnlyTheCluster(h, after, c)
            && (Rewrites(PcOf(s, t), k, h, c) ==> after == h)
  {
    hide Next, Holds, SharedOK, ThreadOK, RequestOf, Serve, UpdateInstance, Enabled;
    var pc := PcOf(s, t);
    if pc.InInstance? && pc.key == k && Q.WritesStatus(pc.atInstance) {
      hide Step;
      assert ThreadOK(s.sh, pc);
      assert Holds(pc.instance.status, c) by { StoresTheCluster(s.sh.store, pc, c); }
      Write(s, t, k, pc.base, pc.instance, pc.atInstance, env);
      UpdateWithTheCluster(s.sh, k, pc.base, pc.instance, pc.atInstance, env, c);
    } else if Enabled(s.sh, RequestOf(pc)) {
      if pc.InInstance? && pc.key == k {
        Q.ReaderAsks(pc);
        Q.OnlyStatusWrites(s.sh, RequestOf(pc), env);
      } else {
        Q.OthersLeaveItAlone(s.sh, pc, env, k);
      }
    }
  }

  lemma StoresTheCluster(s: Store, pc: Pc, c: Cluster)
    requires WillStore(s, pc, c) && pc.InInstance? && Q.WritesStatus(pc.atInstance)
    ensures Holds(pc.instance.status, c)
  {
  }

  /**
   Create, drain, get, over whole runs. A create is sent whose ID is nowhere in the pipeline; later,
   with the cluster listed, a reconcile of an instance that holds the ID begins its get. Whatever is
   added meanwhile, that get finds the cluster that was sent; the reconcile writes no other ID and no
   other info, it writes nothing over a version that already holds them, and all it can return is
   success or the failure of its own write.
   */
  lemma CreatedClusterIsGotten(
    first: seq<Action>, t: Tid, env: Env, middle: seq<Action>, u: Tid, rest: seq<Action>, last: Env, k: Key)
    requires NoDeletes(first) && RunAddsOnly(middle) && RunAddsOnly(rest) && D.NotRespawned(rest, u)
    requires var s := Run(INITIAL, first);
             && MaySend(s, t) && D.NoPendingUpdate(s.sh.store)
             && PcOf(s, t).atInstance.want.id !in Ids(Pipeline(s.sh.store))
    requires var want := PcOf(Run(INITIAL, first), t).atInstance.want;
             var s := Run(Step(Run(INITIAL, first), Thread(t, env)), middle);
             && want.id in Ids(List(s.sh.store))
             && PcOf(s, u).InInstance? && PcOf(s, u).atInstance.GetHeader?
             && PcOf(s, u).instance.status.instanceID == want.id
    ensures var want := PcOf(Run(INITIAL, first), t).atInstance.want;
            var s := Run(Run(Step(Run(INITIAL, first), Thread(t, env)), middle), rest);
            var pc, h := PcOf(s, u), Hist(s.sh.instances, k);
            var after := Hist(Step(s, Thread(u, last)).sh.instances, k);
            && want == Wanted(PcOf(Run(INITIAL, first), t).instance)
            && Lookup(List(s.sh.store), want.id) == Some(want)
            && (pc.InInstance? || pc.Returned?)
            && (pc.Returned? ==> pc.result.Ok? || pc.result.OkRequeue? || pc.result.RequeueErr?)
            && (pc.InInstance? ==> !pc.atInstance.ErrorStatus?)
            && AddsOnlyTheCluster(h, after, want)
            && (Rewrites(pc, k, h, want) ==> after == h)
  {
    hide Run, NoDeletes, Inv, D.NotRespawned, RunAddsOnly, Lookup, Holds, Pipeline, Step, List, D.NoPendingUpdate,
      AddsOnlyTheCluster, Rewrites;
    var sending := Run(INITIAL, first);
    var want, send := PcOf(sending, t).atInstance.want, Thread(t, env);
    var sent := Step(sending, send);
    var getting := Run(sent, middle);
    var now := Run(getting, rest);
    RunKeeps(first);
    SenderWants(sending, t);
    StepKeeps(sending, send);
    AddsDeleteNothing(middle);
    AddsDeleteNothing(rest);
    RunFromKeeps(sent, middle);
    RunFromKeeps(getting, rest);
    SentIsLast(sending, t, env);
    RunPipelineGrows(sent, middle);
    RunPipelineGrows(getting, rest);
    ListedIsFound(sending.sh.store, getting.sh.store, want);
    GettingWillStore(getting.sh.store, PcOf(getting, u), want);
    AddsAreAdds(rest);
    RunWillStore(getting, u, want, rest);
    RunGrows(getting, rest);
    ListedIsFound(sending.sh.store, now.sh.store, want);
    WritesTheCluster(now, u, last, want, k);
    WillStoreSays(now.sh.store, PcOf(now, u), want);
  }

  lemma SenderWants(s: State, t: Tid)
    requires Inv(s) && MaySend(s, t)
    ensures PcOf(s, t).atInstance.want == Wanted(PcOf(s, t).instance)
  {
    hide SharedOK, Wanted, Made;
    assert ThreadOK(s.sh, PcOf(s, t));
  }

  lemma AddsDeleteNothing(actions: seq<Action>)
    requires RunAddsOnly(actions)
    ensures NoDeletes(actions)
  {
  }

  lemma AddsAreAdds(actions: seq<Action>)
    requires RunAddsOnly(actions)
    ensures forall i :: 0 <= i < |actions| ==> D.AddsOnly(actions[i])
  {
  }

  lemma ListedIsFound(before: Store, now: Store, c: Cluster)
    requires c.id !in Ids(Pipeline(before)) && Pipeline(before) + [c] <= Pipeline(now)
    requires c.id in Ids(List(now))
    ensures Lookup(List(now), c.id) == Some(c)
  {
    FoundOnceListed(Pipeline(before), c, List(now), Pipeline(now));
    UnlistedIndex(List(now), c.id);
  }

  lemma GettingWillStore(s: Store, pc: Pc, c: Cluster)
    requires pc.InInstance? && pc.atInstance.GetHeader? && pc.instance.status.instanceID == c.id
    requires Lookup(List(s), c.id) == Some(c)
    ensures WillStore(s, pc, c)
  {
  }

  lemma WillStoreSays(s: Store, pc: Pc, c: Cluster)
    requires WillStore(s, pc, c)
    ensures pc.InInstance? || pc.Returned?
    ensures pc.Returned? ==> pc.result.Ok? || pc.result.OkRequeue? || pc.result.RequeueErr?
    ensures pc.InInstance? ==> !pc.atInstance.ErrorStatus?
  {
  }
}
