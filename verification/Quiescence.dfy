/**
 The instance controller's status writes die out: an instance that is applied once, in a store that
 only gains clusters, gets at most three statuses, however its reconciles interleave.
 */
module Quiescence {
  import opened Types
  import opened Conditions
  import opened ClusterStore
  import opened StoreLaws
  import InstanceInfo
  import opened Api
  import opened Reconcilers
  import opened Operator
  import opened Growth
  import opened Invariants
  import opened ThreadSteps
  import opened Safety
  import D = Discovery

  // -------------------------------------------------------------------- the run

  /** For instance k: one apply, calls that succeed or conflict, an inventory that is found, and no updates. */
  predicate Calm(s: State, a: Action, k: Key) {
    match a
    case Thread(t, env) =>
      var pc := PcOf(s, t);
      pc.InInstance? && pc.key == k ==>
        && env.fault.NoFault?
        && (pc.atInstance.FindInventory? ==> LiveAt(Hist(s.sh.inventories, pc.instance.spec.inventoryRef), env.version))
    case User(u) =>
      (u.ApplyInstance? || u.DeleteInstance?) && u.key == k ==> Hist(s.sh.instances, k) == []
    case Worker(w) => !Deletes(w) && !Updates(w)
    case Spawn(_, _) => true
  }

  /** From s on, every step is calm for instance k. */
  ghost predicate CalmFrom(s: State, actions: seq<Action>, k: Key) {
    forall n :: 0 <= n < |actions| ==> Calm(Run(s, actions[..n]), actions[n], k)
  }

  ghost predicate CalmRun(actions: seq<Action>, k: Key) {
    CalmFrom(INITIAL, actions, k)
  }

  // ------------------------------------------------------------------ the stages

  /** The condition repeats this backend error. */
  predicate Says(conditions: seq<Condition>, message: string) {
    var i := FirstOfKind(conditions, CONNECTION_READY);
    && i < |conditions|
    && conditions[i].status.ConditionFalse?
    && conditions[i].reason == BACKEND_ERROR
    && conditions[i].message == message
  }

  lemma SayingAgain(conditions: seq<Condition>, message: string, now: nat)
    ensures var said := SetStatusCondition(conditions, CONNECTION_READY, ConditionFalse, BACKEND_ERROR, message, now);
            Says(said, message) && (Says(conditions, message) ==> said == conditions)
  {
    var i := FirstOfKind(conditions, CONNECTION_READY);
    var said := SetStatusCondition(conditions, CONNECTION_READY, ConditionFalse, BACKEND_ERROR, message, now);
    assert said[i].kind == CONNECTION_READY;
    assert FirstOfKind(said, CONNECTION_READY) == i;
  }

  /** Why a create for this object must fail, given the list. */
  function CreateFailure(list: seq<Cluster>, o: ProviderInstance): Option<string> {
    if Parameter(o, NAME_PARAMETER) == "" then Some(NAME_REQUIRED)
    else if HasSuffix(Parameter(o, NAME_PARAMETER), INVALID_SUFFIX) then Some(CREATION_FAILED)
    else if Wanted(o).id in Ids(list) then Some(ALREADY_EXISTS)
    else None
  }

  /** A create that failed for good, and says so. */
  predicate FailedCreate(list: seq<Cluster>, o: ProviderInstance) {
    && o.status.phase.Creating?
    && o.status.instanceID == ""
    && CreateFailure(list, o).Some?
    && Says(o.status.conditions, CreateFailure(list, o).value)
  }

  predicate Waiting(o: ProviderInstance) {
    o.status.phase.Pending? && o.status.instanceID != "" && Says(o.status.conditions, NOT_FOUND)
  }

  predicate HasID(o: ProviderInstance) {
    o.status.phase.Ready? && o.status.instanceID != ""
  }

  /** Ready, with the info of the cluster a lookup finds. */
  predicate Found(list: seq<Cluster>, o: ProviderInstance) {
    && HasID(o)
    && Lookup(list, o.status.instanceID).Some?
    && o.status.instanceInfo == InstanceInfo.Info(Lookup(list, o.status.instanceID).value)
  }

  /** The stages: applied; then failed for good, or created; then waiting, or found. */
  ghost predicate Stage(list: seq<Cluster>, h: History<ProviderInstance>) {
    h != [] ==>
      var n := |h|;
      && h[n - 1].Live?
      && var o := h[n - 1].obj;
         || (n == 1 && o.status == EMPTY_INSTANCE_STATUS)
         || (n == 2 && FailedCreate(list, o))
         || (n == 2 && HasID(o))
         || (n == 3 && Waiting(o))
         || (3 <= n <= 4 && Found(list, o))
  }

  /** No reconcile can change the status any more. */
  predicate Settled(h: History<ProviderInstance>) {
    && h != [] && h[|h| - 1].Live?
    && var phase := h[|h| - 1].obj.status.phase;
       (|h| >= 2 && phase.Creating?) || (|h| >= 3 && phase.Ready?)
  }

  // ------------------------------------------------------------------ goroutines

  /** A reconcile that read the latest version: what it holds, and what it may yet write. */
  ghost predicate LatestOK(s: Store, h: History<ProviderInstance>, o: ProviderInstance, at: InstanceAt)
    requires h != [] && h[|h| - 1].Live?
  {
    var stored := h[|h| - 1].obj;
    match at
    case FindInventory => o.status == stored.status.(phase := Unknown)
    case OpenInstanceCloud => o.status == stored.status.(phase := Pending)
    case CreateHeader(want) =>
      && o.status == stored.status.(phase := Creating)
      && want == Wanted(o) && stored.status.instanceID == ""
      && (CreateFailure(List(s), o).Some? ==> CreateFailure(List(s), o).value == ALREADY_EXISTS)
    case CreateScan(want, hdr, i) =>
      && o.status == stored.status.(phase := Creating)
      && want == Wanted(o) && stored.status.instanceID == ""
      && (CreateFailure(List(s), o).Some? ==> CreateFailure(List(s), o).value == ALREADY_EXISTS)
      && hdr.len <= |List(s)|
      && (Settled(h) ==> want.id in Ids(List(s))[..hdr.len])
    case GetHeader => o.status == stored.status.(phase := Pending)
    case GetScan(hdr, i) =>
      && o.status == stored.status.(phase := Pending)
      && SeesClusters(s, hdr)
      && (Settled(h) ==> stored.status.instanceID in Ids(List(s))[..hdr.len])
    case ErrorStatus(_) =>
      || o.status == stored.status
      || (|h| == 1 && FailedCreate(List(s), o))
      || (|h| == 2 && HasID(stored) && Waiting(o))
    case ReadyStatus =>
      || o.status == stored.status
      || (|h| == 1 && HasID(o))
      || (2 <= |h| <= 3 && !Settled(h) && Found(List(s), o))
    case _ => false
  }

  ghost predicate QuietThread(sh: Shared, k: Key, pc: Pc) {
    pc.InInstance? && pc.key == k ==>
      var h := Hist(sh.instances, k);
      && !pc.atInstance.ReadyRetryStatus?
      && (h != [] && h[|h| - 1].Live? && pc.base == |h| - 1 ==> LatestOK(sh.store, h, pc.instance, pc.atInstance))
  }

  ghost predicate Quiet(s: State, k: Key) {
    && Stage(List(s.sh.store), Hist(s.sh.instances, k))
    && D.NoPendingUpdate(s.sh.store)
    && forall t :: t in s.threads ==> QuietThread(s.sh, k, s.threads[t])
  }

  // ------------------------------------------------------------------- stability

  lemma LookupStable(list: seq<Cluster>, more: seq<Cluster>, id: string)
    requires list <= more && Lookup(list, id).Some?
    ensures Lookup(more, id) == Lookup(list, id)
  {
    var i := FirstIndex(list, id);
    assert more[i] == list[i] && forall j :: 0 <= j < i ==> more[j] == list[j];
    FirstIndexIs(more, id, i);
  }

  lemma IdsPrefix(list: seq<Cluster>, more: seq<Cluster>)
    requires list <= more
    ensures Ids(list) <= Ids(more)
    ensures forall n :: 0 <= n <= |list| ==> Ids(list)[..n] == Ids(more)[..n]
  {
    assert forall i :: 0 <= i < |list| ==> more[i] == list[i];
  }

  lemma FailureStable(list: seq<Cluster>, more: seq<Cluster>, o: ProviderInstance)
    requires list <= more && CreateFailure(list, o).Some?
    ensures CreateFailure(more, o) == CreateFailure(list, o)
  {
    hide HasSuffix, Wanted;
    IdsPrefix(list, more);
  }

  lemma StageStable(list: seq<Cluster>, more: seq<Cluster>, h: History<ProviderInstance>)
    requires list <= more && Stage(list, h)
    ensures Stage(more, h)
  {
    hide CreateFailure, Says, InstanceInfo.Info;
    if h != [] && h[|h| - 1].Live? {
      var o := h[|h| - 1].obj;
      if FailedCreate(list, o) {
        FailureStable(list, more, o);
      }
      if Found(list, o) {
        LookupStable(list, more, o.status.instanceID);
      }
    }
  }

  /** What the reconciles of k rely on when others move. */
  ghost predicate OnlyAdds(a: Store, b: Store) {
    && List(a) <= List(b)
    && (forall h :: SeesClusters(a, h) ==> SeesClusters(b, h))
  }

  lemma LatestStable(a: Store, b: Store, h: History<ProviderInstance>, o: ProviderInstance, at: InstanceAt)
    requires OnlyAdds(a, b) && h != [] && h[|h| - 1].Live? && LatestOK(a, h, o, at)
    ensures LatestOK(b, h, o, at)
  {
    hide Says, InstanceInfo.Info, Wanted, SeesClusters, List, CreateFailure;
    IdsPrefix(List(a), List(b));
    if CreateFailure(List(a), o).Some? {
      FailureStable(List(a), List(b), o);
    } else {
      AlreadyExistsAtLast(List(a), List(b), o);
    }
    if Found(List(a), o) {
      LookupStable(List(a), List(b), o.status.instanceID);
    }
    assert at.CreateScan? ==> |Ids(List(a))| == |List(a)| <= |List(b)|;
    assert at.GetScan? && SeesClusters(a, at.h) ==> at.h.len <= |List(a)| by { SeenIsListed(a); }
  }

  lemma SeenIsListed(s: Store)
    ensures forall h :: SeesClusters(s, h) ==> h.len <= |List(s)|
  {
  }

  lemma AlreadyExistsAtLast(list: seq<Cluster>, more: seq<Cluster>, o: ProviderInstance)
    requires CreateFailure(list, o).None?
    ensures CreateFailure(more, o).Some? ==> CreateFailure(more, o).value == ALREADY_EXISTS
  {
  }

  // ------------------------------------------------------------------- own steps

  /** A calm reply: what was asked for, or a conflict. */
  ghost predicate CalmReply(sh: Shared, o: ProviderInstance, at: InstanceAt, reply: Reply) {
    match at
    case FindInventory => reply.InventoryRead?
    case OpenInstanceCloud => reply.Done?
    case CreateHeader(_) => reply == Header(sh.store.hdr)
    case CreateScan(_, h, i) =>
      i < h.len && SeesIds(sh.store, h) ==> reply.Element? && reply.cluster.id == List(sh.store)[i].id
    case GetHeader => reply == Header(sh.store.hdr)
    case GetScan(h, i) => i < h.len && SeesClusters(sh.store, h) ==> reply == Element(List(sh.store)[i])
    case _ => reply.Written? || reply.Conflict?
  }

  /** What a reconcile that read the latest version knows before a call, with its own invariant. */
  ghost predicate Latest(sh: Shared, k: Key, o: ProviderInstance, at: InstanceAt) {
    var h := Hist(sh.instances, k);
    && h != [] && h[|h| - 1].Live?
    && Stage(List(sh.store), h)
    && LatestOK(sh.store, h, o, at)
    && o.spec == h[|h| - 1].obj.spec
    && InstanceThreadOK(sh, k, h[|h| - 1].obj.status, o, at)
  }

  /** The next point, if it is still this reconcile's. */
  ghost predicate StaysLatest(sh: Shared, k: Key, pc: Pc) {
    var h := Hist(sh.instances, k);
    h != [] && h[|h| - 1].Live? && pc.InInstance? && !pc.atInstance.ReadyRetryStatus? ==>
      LatestOK(sh.store, h, pc.instance, pc.atInstance)
  }

  lemma FailureDependsOnSpec(list: seq<Cluster>, o: ProviderInstance, p: ProviderInstance)
    requires o.spec == p.spec
    ensures CreateFailure(list, o) == CreateFailure(list, p) && Wanted(o) == Wanted(p)
  {
  }

  /** A create that fails writes its failure once. */
  lemma FailedCreateNext(
    sh: Shared, k: Key, h: History<ProviderInstance>, o: ProviderInstance, message: string, now: nat)
    requires h != [] && h[|h| - 1].Live? && Stage(List(sh.store), h)
    requires o.spec == h[|h| - 1].obj.spec && h[|h| - 1].obj.status.instanceID == ""
    requires o.status == h[|h| - 1].obj.status.(phase := Creating)
    requires CreateFailure(List(sh.store), o) == Some(message)
    ensures LatestOK(sh.store, h, WithInstanceCondition(o, ConditionFalse, BACKEND_ERROR, message, now),
          ErrorStatus(message))
  {
    hide CreateFailure, Says, SetStatusCondition, InstanceInfo.Info, List;
    var stored := h[|h| - 1].obj;
    var failed := WithInstanceCondition(o, ConditionFalse, BACKEND_ERROR, message, now);
    FailureDependsOnSpec(List(sh.store), o, stored);
    FailureDependsOnSpec(List(sh.store), o, failed);
    SayingAgain(o.status.conditions, message, now);
  }

  lemma OpenNext(sh: Shared, k: Key, base: nat, o: ProviderInstance, reply: Reply, now: nat)
    requires Latest(sh, k, o, OpenInstanceCloud) && reply.Done?
    ensures StaysLatest(sh, k, InstanceNext(k, base, o, OpenInstanceCloud, reply, now))
  {
    hide Stage, InstanceThreadOK, Wanted, HasSuffix, List;
    var h := Hist(sh.instances, k);
    var creating := WithPhase(o, Creating);
    FailureDependsOnSpec(List(sh.store), o, creating);
    if o.status.instanceID == "" && CreateFailure(List(sh.store), creating).Some? {
      FailedCreateNext(sh, k, h, creating, CreateFailure(List(sh.store), creating).value, now);
    }
  }

  lemma CreateNext(sh: Shared, k: Key, base: nat, o: ProviderInstance, at: InstanceAt, reply: Reply, now: nat)
    requires at.CreateHeader? || at.CreateScan?
    requires Latest(sh, k, o, at) && CalmReply(sh, o, at, reply)
    ensures StaysLatest(sh, k, InstanceNext(k, base, o, at, reply, now))
  {
    hide Wanted, Says, InstanceInfo.Info, SetStatusCondition, WithInstanceCondition, Made, Lookup;
    var h := Hist(sh.instances, k);
    var ids := Ids(List(sh.store));
    FailureDependsOnSpec(List(sh.store), o, h[|h| - 1].obj);
    match at
    case CreateHeader(want) => assert ids[..|ids|] == ids;
    case CreateScan(want, hdr, i) =>
      if i < hdr.len {
        if reply.cluster.id == want.id {
          assert ids[i] == want.id;
          FailedCreateNext(sh, k, h, o, ALREADY_EXISTS, now);
        }
      } else {
        assert forall j :: 0 <= j < hdr.len ==> ids[..hdr.len][j] != want.id;
      }
  }

  lemma GetHeaderNext(sh: Shared, k: Key, base: nat, o: ProviderInstance, reply: Reply, now: nat)
    requires Latest(sh, k, o, GetHeader) && reply == Header(sh.store.hdr)
    ensures StaysLatest(sh, k, InstanceNext(k, base, o, GetHeader, reply, now))
  {
    hide Says, InstanceInfo.Info, CreateFailure, Made;
    var h := Hist(sh.instances, k);
    var list, ids := List(sh.store), Ids(List(sh.store));
    assert ids[..|ids|] == ids;
    if Settled(h) {
      assert Found(list, h[|h| - 1].obj);
      assert ids[FirstIndex(list, o.status.instanceID)] == o.status.instanceID;
    }
  }

  lemma GetScanNext(sh: Shared, k: Key, base: nat, o: ProviderInstance, at: InstanceAt, reply: Reply, now: nat)
    requires at.GetScan?
    requires Latest(sh, k, o, at) && CalmReply(sh, o, at, reply)
    ensures StaysLatest(sh, k, InstanceNext(k, base, o, at, reply, now))
  {
    hide Says, InstanceInfo.Info, SetStatusCondition, CreateFailure, Made, InstanceThreadOK;
    var h, i, id := Hist(sh.instances, k), at.i, o.status.instanceID;
    var list, ids := List(sh.store), Ids(List(sh.store));
    ScannedBefore(sh, k, h[|h| - 1].obj.status, o, at);
    if i < at.h.len {
      if reply.cluster.id == id {
        FirstIndexIs(list, id, i);
      }
    } else {
      assert forall j :: 0 <= j < at.h.len ==> ids[..at.h.len][j] != id;
      SayingAgain(o.status.conditions, NOT_FOUND, now);
    }
  }

  lemma ScannedBefore(sh: Shared, k: Key, stored: InstanceStatus, o: ProviderInstance, at: InstanceAt)
    requires at.GetScan? && InstanceThreadOK(sh, k, stored, o, at)
    ensures o.status.instanceID != "" && at.i <= at.h.len <= |List(sh.store)|
    ensures forall j :: 0 <= j < at.i ==> List(sh.store)[j].id != o.status.instanceID
  {
  }

  lemma LatestNext(sh: Shared, k: Key, base: nat, o: ProviderInstance, at: InstanceAt, reply: Reply, now: nat)
    requires Latest(sh, k, o, at) && CalmReply(sh, o, at, reply)
    ensures StaysLatest(sh, k, InstanceNext(k, base, o, at, reply, now))
  {
    if at.OpenInstanceCloud? {
      hide Latest, StaysLatest, InstanceNext;
      OpenNext(sh, k, base, o, reply, now);
    } else if at.CreateHeader? || at.CreateScan? {
      hide Latest, StaysLatest, InstanceNext, CalmReply;
      CreateNext(sh, k, base, o, at, reply, now);
    } else if at.GetHeader? {
      hide Latest, StaysLatest, InstanceNext;
      GetHeaderNext(sh, k, base, o, reply, now);
    } else if at.GetScan? {
      hide Latest, StaysLatest, InstanceNext, CalmReply;
      GetScanNext(sh, k, base, o, at, reply, now);
    } else {
      hide Stage, Made, List;
    }
  }

  /** A calm reconcile never retries its last write with a condition. */
  lemma NoRetry(sh: Shared, k: Key, base: nat, o: ProviderInstance, at: InstanceAt, reply: Reply, now: nat)
    requires CalmReply(sh, o, at, reply)
    ensures var pc := InstanceNext(k, base, o, at, reply, now);
            !(pc.InInstance? && pc.atInstance.ReadyRetryStatus?)
  {
    hide List, WithInstanceCondition, WithDetails, HasSuffix, Wanted;
  }

  /** The latest version moves on one stage, or not at all. */
  lemma WriteStage(sh: Shared, k: Key, base: nat, o: ProviderInstance, at: InstanceAt, env: Env)
    requires LiveAt(Hist(sh.instances, k), base) && o.spec == Hist(sh.instances, k)[base].obj.spec
    requires Stage(List(sh.store), Hist(sh.instances, k))
    requires base == |Hist(sh.instances, k)| - 1 ==> LatestOK(sh.store, Hist(sh.instances, k), o, at)
    requires at.ErrorStatus? || at.ReadyStatus?
    ensures var (after, _) := UpdateInstance(sh, k, base, o.status, env);
            && Stage(List(sh.store), Hist(after.instances, k))
            && (Settled(Hist(sh.instances, k)) ==> Hist(after.instances, k) == Hist(sh.instances, k))
  {
    hide List, Says, CreateFailure, InstanceInfo.Info, Lookup;
    var h := Hist(sh.instances, k);
    assert h[base].obj.(status := o.status) == o;
  }

  lemma ServeIsCalm(s: State, t: Tid, env: Env, k: Key)
    requires PcOf(s, t).InInstance? && PcOf(s, t).key == k
    requires ThreadOK(s.sh, PcOf(s, t)) && !PcOf(s, t).atInstance.ReadyRetryStatus?
    requires Calm(s, Thread(t, env), k) && Enabled(s.sh, RequestOf(PcOf(s, t)))
    requires Stage(List(s.sh.store), Hist(s.sh.instances, k))
    ensures var pc := PcOf(s, t);
            var (after, reply) := Serve(s.sh, RequestOf(pc), env);
            CalmReply(after, pc.instance, pc.atInstance, reply)
  {
    hide Made, FailedCreate, Found, Waiting, HasID, PhaseOK;
  }

  lemma QuietStable(a: Shared, b: Shared, k: Key, pc: Pc)
    requires QuietThread(a, k, pc) && ThreadOK(a, pc)
    requires OnlyAdds(a.store, b.store) && Hist(a.instances, k) <= Hist(b.instances, k)
    ensures QuietThread(b, k, pc)
  {
    hide LatestOK, OnlyAdds, InstanceThreadOK;
    if pc.InInstance? && pc.key == k {
      var h := Hist(a.instances, k);
      assert LiveAt(h, pc.base);
      assert |h| == |Hist(b.instances, k)| ==> h == Hist(b.instances, k);
      if |h| == |Hist(b.instances, k)| && h[|h| - 1].Live? && pc.base == |h| - 1 {
        LatestStable(a.store, b.store, h, pc.instance, pc.atInstance);
      }
    }
  }

  lemma StoreOnlyAdds(s: Store, w: StoreAction)
    requires D.NoPendingUpdate(s) && !Deletes(w) && !Updates(w)
    ensures OnlyAdds(s, StoreStep(s, w)) && D.NoPendingUpdate(StoreStep(s, w))
  {
    ListGrows(s, w);
    D.NoUpdateAppears(s, w);
    hide StoreStep;
    forall h | SeesClusters(s, h) {
      SnapshotKeepsClusters(s, w, h);
    }
  }

  lemma ServeOnlyAdds(sh: Shared, req: Request, env: Env)
    requires D.NoPendingUpdate(sh.store) && Enabled(sh, req)
    ensures var after := Serve(sh, req, env).0;
            OnlyAdds(sh.store, after.store) && D.NoPendingUpdate(after.store)
  {
    hide OnlyAdds;
    if req.SendAdd? {
      StoreOnlyAdds(sh.store, AddSend(req.cluster));
    } else {
      D.OnlySendsTouchTheStore(sh, req, env);
      SameOnlyAdds(sh.store);
    }
  }

  lemma SameOnlyAdds(s: Store)
    ensures OnlyAdds(s, s)
  {
  }

  /** Only a reconcile of k, or a user, writes k. */
  lemma OthersLeaveItAlone(sh: Shared, pc: Pc, env: Env, k: Key)
    requires Enabled(sh, RequestOf(pc)) && !(pc.InInstance? && pc.key == k)
    ensures Hist(Serve(sh, RequestOf(pc), env).0.instances, k) == Hist(sh.instances, k)
  {
    hide Serve, Commit;
    var req := RequestOf(pc);
    if req.UpdateInstanceStatus? {
      assert pc.InInstance? && pc.key != k && req.key == pc.key;
      UpdateIsServed(sh, req, env);
    } else {
      OnlyStatusWrites(sh, req, env);
    }
  }

  lemma UpdateIsServed(sh: Shared, req: Request, env: Env)
    requires req.UpdateInstanceStatus?
    ensures Serve(sh, req, env) == UpdateInstance(sh, req.key, req.base, req.instance, env)
  {
  }

  lemma OnlyStatusWrites(sh: Shared, req: Request, env: Env)
    requires Enabled(sh, req) && !req.UpdateInstanceStatus?
    ensures Serve(sh, req, env).0.instances == sh.instances
  {
  }

  // ------------------------------------------------------------------- all steps

  lemma StartNextQuiet(sh: Shared, pc: Pc, reply: Reply, now: nat, k: Key)
    requires !(pc.InInstance? && pc.key == k) && Fits(sh, RequestOf(pc), reply)
    ensures QuietThread(sh, k, Next(pc, reply, now))
  {
    hide InstanceNext, InventoryNext, ConnectionNext, List;
  }

  lemma OtherCallQuiet(s: State, t: Tid, env: Env, k: Key)
    requires Inv(s) && Quiet(s, k) && Enabled(s.sh, RequestOf(PcOf(s, t)))
    requires !(PcOf(s, t).InInstance? && PcOf(s, t).key == k)
    ensures Quiet(ThreadStep(s, t, env), k)
    ensures Hist(ThreadStep(s, t, env).sh.instances, k) == Hist(s.sh.instances, k)
  {
    hide Serve, Next, RequestOf, Enabled, QuietThread, ThreadOK, SharedOK, Stage, Fits;
    var pc := PcOf(s, t);
    var (after, reply) := Serve(s.sh, RequestOf(pc), env);
    OthersLeaveItAlone(s.sh, pc, env, k);
    ServeOnlyAdds(s.sh, RequestOf(pc), env);
    ServeFits(s.sh, RequestOf(pc), env);
    StageStable(List(s.sh.store), List(after.store), Hist(s.sh.instances, k));
    StartNextQuiet(after, pc, reply, env.now, k);
    forall u | u in s.threads {
      QuietStable(s.sh, after, k, s.threads[u]);
    }
  }

  lemma LatestHolds(sh: Shared, k: Key, base: nat, o: ProviderInstance, at: InstanceAt)
    requires ThreadOK(sh, InInstance(k, base, o, at)) && QuietThread(sh, k, InInstance(k, base, o, at))
    requires Stage(List(sh.store), Hist(sh.instances, k))
    ensures !at.DetailsErrorStatus?
    ensures base == |Hist(sh.instances, k)| - 1 ==> Latest(sh, k, o, at)
  {
    hide LatestOK, Stage, List, WriteOnce, Made, SeesIds;
  }

  /** The own thread after a call that did not write its object. */
  lemma OwnNextQuiet(sh: Shared, k: Key, base: nat, o: ProviderInstance, at: InstanceAt, reply: Reply, now: nat)
    requires ThreadOK(sh, InInstance(k, base, o, at)) && QuietThread(sh, k, InInstance(k, base, o, at))
    requires Stage(List(sh.store), Hist(sh.instances, k))
    requires CalmReply(sh, o, at, reply)
    ensures QuietThread(sh, k, InstanceNext(k, base, o, at, reply, now))
  {
    LatestHolds(sh, k, base, o, at);
    hide LatestOK, InstanceNext, Stage, CalmReply, ThreadOK, Latest, List;
    NoRetry(sh, k, base, o, at, reply, now);
    SameBase(k, base, o, at, reply, now);
    if base == |Hist(sh.instances, k)| - 1 {
      LatestNext(sh, k, base, o, at, reply, now);
    }
  }

  lemma NextOfInstance(pc: Pc, reply: Reply, now: nat)
    requires pc.InInstance?
    ensures Next(pc, reply, now) == InstanceNext(pc.key, pc.base, pc.instance, pc.atInstance, reply, now)
  {
    hide InstanceNext;
  }

  /** Only after its failed details does a reconcile take up a newer version. */
  lemma SameBase(k: Key, base: nat, o: ProviderInstance, at: InstanceAt, reply: Reply, now: nat)
    requires !at.DetailsErrorStatus?
    ensures var pc := InstanceNext(k, base, o, at, reply, now); pc.InInstance? ==> pc.base == base && pc.key == k
  {
    hide WithInstanceCondition, WithDetails, HasSuffix, Wanted;
  }

  lemma NotDetails(sh: Shared, k: Key, stored: InstanceStatus, o: ProviderInstance, at: InstanceAt)
    requires InstanceThreadOK(sh, k, stored, o, at)
    ensures !at.DetailsErrorStatus?
  {
  }

  predicate WritesStatus(at: InstanceAt) {
    at.ErrorStatus? || at.DetailsErrorStatus? || at.ReadyStatus? || at.ReadyRetryStatus?
  }

  lemma WriterReturns(pc: Pc, reply: Reply, now: nat)
    requires pc.InInstance? && (pc.atInstance.ErrorStatus? || pc.atInstance.ReadyStatus?)
    requires reply.Written? || reply.Conflict?
    ensures Next(pc, reply, now).Returned?
    ensures RequestOf(pc) == UpdateInstanceStatus(pc.key, pc.base, pc.instance.status)
  {
  }

  lemma ReaderAsks(pc: Pc)
    requires pc.InInstance? && !WritesStatus(pc.atInstance)
    ensures !RequestOf(pc).UpdateInstanceStatus?
  {
  }

  lemma OwnReadQuiet(s: State, t: Tid, env: Env, k: Key)
    requires Inv(s) && Quiet(s, k) && Enabled(s.sh, RequestOf(PcOf(s, t))) && Calm(s, Thread(t, env), k)
    requires PcOf(s, t).InInstance? && PcOf(s, t).key == k && !WritesStatus(PcOf(s, t).atInstance)
    ensures Quiet(ThreadStep(s, t, env), k)
    ensures Hist(ThreadStep(s, t, env).sh.instances, k) == Hist(s.sh.instances, k)
  {
    hide Serve, Next, RequestOf, Enabled, QuietThread, ThreadOK, SharedOK, Stage, CalmReply, Calm, Grows;
    var pc := PcOf(s, t);
    var req := RequestOf(pc);
    var (after, reply) := Serve(s.sh, req, env);
    assert t in s.threads;
    ReaderAsks(pc);
    OnlyStatusWrites(s.sh, req, env);
    ServeIsCalm(s, t, env, k);
    ServeGrows(s.sh, req, env);
    ThreadStable(s.sh, after, pc);
    ServeOnlyAdds(s.sh, req, env);
    StageStable(List(s.sh.store), List(after.store), Hist(s.sh.instances, k));
    QuietStable(s.sh, after, k, pc);
    OwnNextQuiet(after, k, pc.base, pc.instance, pc.atInstance, reply, env.now);
    NextOfInstance(pc, reply, env.now);
    forall u | u in s.threads {
      QuietStable(s.sh, after, k, s.threads[u]);
    }
  }

  lemma OwnWriteQuiet(s: State, t: Tid, env: Env, k: Key)
    requires Inv(s) && Quiet(s, k) && Enabled(s.sh, RequestOf(PcOf(s, t))) && Calm(s, Thread(t, env), k)
    requires PcOf(s, t).InInstance? && PcOf(s, t).key == k
    requires PcOf(s, t).atInstance.ErrorStatus? || PcOf(s, t).atInstance.ReadyStatus?
    ensures Quiet(ThreadStep(s, t, env), k)
    ensures Settled(Hist(s.sh.instances, k)) ==>
              Hist(ThreadStep(s, t, env).sh.instances, k) == Hist(s.sh.instances, k)
  {
    hide Serve, Next, RequestOf, Enabled, SharedOK, Stage, Calm, LatestOK, InstanceThreadOK, Grows, Settled,
      UpdateInstance;
    var pc := PcOf(s, t);
    var req := RequestOf(pc);
    var (after, reply) := Serve(s.sh, req, env);
    assert ThreadOK(s.sh, pc) && QuietThread(s.sh, k, pc);
    ServeIsCalm(s, t, env, k);
    WriterReturns(pc, reply, env.now);
    UpdateIsServed(s.sh, req, env);
    WriteStage(s.sh, k, pc.base, pc.instance, pc.atInstance, env);
    ServeOnlyAdds(s.sh, req, env);
    D.OnlySendsTouchTheStore(s.sh, req, env);
    ServeGrows(s.sh, req, env);
    assert Hist(s.sh.instances, k) <= Hist(after.instances, k) by { GrowsInstances(s.sh, after, k); }
    hide QuietThread, ThreadOK;
    forall u | u in s.threads {
      QuietStable(s.sh, after, k, s.threads[u]);
    }
    assert QuietThread(after, k, Next(pc, reply, env.now)) by { ReturnedIsQuiet(after, k, Next(pc, reply, env.now)); }
  }

  lemma GrowsInstances(a: Shared, b: Shared, k: Key)
    requires Grows(a, b)
    ensures Hist(a.instances, k) <= Hist(b.instances, k)
  {
  }

  lemma ReturnedIsQuiet(sh: Shared, k: Key, pc: Pc)
    requires !pc.InInstance?
    ensures QuietThread(sh, k, pc)
  {
  }

  lemma UserQuiet(s: State, u: UserAction, k: Key)
    requires Inv(s) && Quiet(s, k) && Calm(s, User(u), k)
    ensures Quiet(s.(sh := UserStep(s.sh, u)), k)
    ensures Hist(s.sh.instances, k) != [] ==> Hist(UserStep(s.sh, u).instances, k) == Hist(s.sh.instances, k)
  {
    hide SharedOK, InstanceThreadOK, QuietThread, AppliedInventory, AppliedConnection, Grows, FailedCreate, Found;
    var after := UserStep(s.sh, u);
    D.UsersAreApart(s.sh, u);
    SameOnlyAdds(s.sh.store);
    UserGrows(s.sh, u);
    GrowsInstances(s.sh, after, k);
    hide ThreadOK;
    forall t | t in s.threads {
      QuietStable(s.sh, after, k, s.threads[t]);
    }
  }

  lemma WorkerQuiet(s: State, w: StoreAction, k: Key)
    requires Inv(s) && Quiet(s, k) && !Deletes(w) && !Updates(w) && !w.AddSend?
    ensures Quiet(s.(sh := s.sh.(store := StoreStep(s.sh.store, w))), k)
  {
    hide SharedOK, ThreadOK, QuietThread, Stage, StoreStep;
    var after := s.sh.(store := StoreStep(s.sh.store, w));
    StoreOnlyAdds(s.sh.store, w);
    StageStable(List(s.sh.store), List(after.store), Hist(s.sh.instances, k));
    forall t | t in s.threads {
      QuietStable(s.sh, after, k, s.threads[t]);
    }
  }

  /** Every calm step keeps the stages, and moves none that is settled. */
  lemma StepQuiet(s: State, a: Action, k: Key)
    requires Inv(s) && Quiet(s, k) && Calm(s, a, k)
    ensures Quiet(Step(s, a), k)
    ensures Settled(Hist(s.sh.instances, k)) ==> Hist(Step(s, a).sh.instances, k) == Hist(s.sh.instances, k)
  {
    hide Inv, ThreadStep, UserStep, StoreStep, QuietThread, Enabled, RequestOf, Stage;
    match a
    case Spawn(t, start) =>
      if Starting(start) {
        ReturnedIsQuiet(s.sh, k, start);
      }
    case Worker(w) =>
      if !w.AddSend? {
        hide Quiet;
        WorkerQuiet(s, w, k);
      }
    case User(u) =>
      hide Quiet, Calm;
      UserQuiet(s, u, k);
    case Thread(t, env) =>
      hide Quiet, Calm;
      ThreadQuiet(s, t, env, k);
  }

  lemma ThreadQuiet(s: State, t: Tid, env: Env, k: Key)
    requires Inv(s) && Quiet(s, k) && Calm(s, Thread(t, env), k)
    ensures Quiet(ThreadStep(s, t, env), k)
    ensures Settled(Hist(s.sh.instances, k)) ==>
              Hist(ThreadStep(s, t, env).sh.instances, k) == Hist(s.sh.instances, k)
  {
    hide Calm, Settled, SharedOK, Stage, LatestOK, Serve, Next, RequestOf, Enabled;
    var pc := PcOf(s, t);
    if !Enabled(s.sh, RequestOf(pc)) {
      assert ThreadStep(s, t, env) == s;
    } else if !(pc.InInstance? && pc.key == k) {
      OtherCallQuiet(s, t, env, k);
    } else if !WritesStatus(pc.atInstance) {
      OwnReadQuiet(s, t, env, k);
    } else {
      assert ThreadOK(s.sh, pc) && QuietThread(s.sh, k, pc);
      NotDetails(s.sh, k, Hist(s.sh.instances, k)[pc.base].obj.status, pc.instance, pc.atInstance);
      OwnWriteQuiet(s, t, env, k);
    }
  }

  lemma CalmDeletesNothing(s: State, actions: seq<Action>, k: Key)
    requires CalmFrom(s, actions, k)
    ensures NoDeletes(actions)
  {
    hide Run;
    forall i | 0 <= i < |actions|
      ensures NoDelete(actions[i])
    {
      assert Calm(Run(s, actions[..i]), actions[i], k);
    }
  }

  lemma {:induction false} CalmRunsAreQuiet(actions: seq<Action>, k: Key)
    requires CalmRun(actions, k)
    ensures Quiet(Run(INITIAL, actions), k)
    decreases |actions|
  {
    hide Inv, Step, NoDelete, Calm;
    if actions == [] {
    } else {
      hide Quiet;
      var n := |actions| - 1;
      CalmPrefix(actions, n, k);
      CalmRunsAreQuiet(actions[..n], k);
      CalmDeletesNothing(INITIAL, actions, k);
      RunKeeps(actions[..n]);
      StepQuiet(Run(INITIAL, actions[..n]), actions[n], k);
    }
  }

  lemma CalmPrefix(actions: seq<Action>, n: nat, k: Key)
    requires n <= |actions| && CalmRun(actions, k)
    ensures CalmRun(actions[..n], k)
  {
    hide Run, Calm;
    forall m | 0 <= m < n
      ensures Calm(Run(INITIAL, actions[..n][..m]), actions[..n][m], k)
    {
      assert actions[..n][..m] == actions[..m];
    }
  }

  /**
   An instance applied once, in a calm run, never has more than four versions: the user's, and at
   most three statuses. The latest one is at a stage that says where the create stands.
   */
  lemma StatusWritesDieOut(actions: seq<Action>, k: Key)
    requires CalmRun(actions, k)
    ensures |Hist(Run(INITIAL, actions).sh.instances, k)| <= 4
    ensures Stage(List(Run(INITIAL, actions).sh.store), Hist(Run(INITIAL, actions).sh.instances, k))
  {
    hide Run, NoDeletes, CalmRun, Found, FailedCreate, Waiting;
    CalmRunsAreQuiet(actions, k);
  }
}
