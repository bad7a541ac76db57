/** A cluster no instance recorded is never created again: its name answers "already exists" for good. */
module Orphans {
  import opened Types
  import opened ClusterStore
  import StoreLaws
  import InstanceInfo
  import opened Api
  import opened Reconcilers
  import opened Operator
  import opened Growth
  import opened Invariants
  import opened ThreadSteps
  import opened Safety
  import opened Discovery
  import opened Race
  import opened Walks
  import opened Writes
  import opened Quiescence

  /** A create of a listed ID: at its look at the list, in its scan, or past its refusal. */
  ghost predicate Refused(s: Store, pc: Pc, id: string) {
    match pc
    case InInstance(_, _, o, at) => (
      match at
      case CreateHeader(want) => want.id == id && id in Ids(List(s))
      case CreateScan(want, h, _) => want.id == id && SeesIds(s, h) && id in Ids(List(s))[..h.len]
      case ErrorStatus(message) => message == ALREADY_EXISTS && o.status.instanceID == ""
      case _ => false)
    case Returned(result) => result == Err(ALREADY_EXISTS) || result.RequeueErr?
    case _ => false
  }

  lemma RefusedStable(a: Store, b: Store, pc: Pc, id: string)
    requires StoreGrows(a, b) && Refused(a, pc, id)
    ensures Refused(b, pc, id)
  {
    hide SeesIds;
    assert forall x :: x in Ids(List(a)) ==> x in Ids(List(b));
    if pc.InInstance? && pc.atInstance.CreateScan? {
      var n := pc.atInstance.h.len;
      assert n <= |List(a)| by { SeenLength(a, pc.atInstance.h); }
      assert Ids(List(a))[..n] == Ids(List(b))[..n];
    }
  }

  lemma SeenLength(s: Store, h: Slice)
    requires SeesIds(s, h)
    ensures h.len <= |List(s)|
  {
  }

  /** The scan meets the ID before its end, and no refusal is taken back. */
  lemma RefusedNext(
    sh: Shared, k: Key, base: nat, o: ProviderInstance, at: InstanceAt, reply: Reply, now: nat, id: string)
    requires ThreadOK(sh, InInstance(k, base, o, at)) && Refused(sh.store, InInstance(k, base, o, at), id)
    requires Fits(sh, RequestOf(InInstance(k, base, o, at)), reply)
    ensures Refused(sh.store, InstanceNext(k, base, o, at, reply, now), id)
  {
    hide Made, Conditions.SetStatusCondition, WithDetails;
    match at
    case CreateHeader(_) => assert Ids(List(sh.store))[..|List(sh.store)|] == Ids(List(sh.store));
    case CreateScan(_, h, i) => StoreLaws.ScanIsNotOver(sh.store, h, i, id);
    case _ =>
  }

  lemma RestingStays(pc: Pc, reply: Reply, now: nat)
    requires pc.Returned?
    ensures Next(pc, reply, now) == pc && RequestOf(pc) == Nothing
  {
  }

  lemma NeverSends(s: State, t: Tid, id: string)
    requires Inv(s) && Refused(s.sh.store, PcOf(s, t), id)
    ensures !RequestOf(PcOf(s, t)).SendAdd?
  {
    hide SharedOK, Made;
    var pc := PcOf(s, t);
    if pc.InInstance? && pc.atInstance.CreateScan? {
      assert ThreadOK(s.sh, pc);
      StoreLaws.ScanIsNotOver(s.sh.store, pc.atInstance.h, pc.atInstance.i, id);
    }
  }

  lemma CallRefused(s: State, t: Tid, env: Env, id: string)
    requires Inv(s) && Refused(s.sh.store, PcOf(s, t), id) && Enabled(s.sh, RequestOf(PcOf(s, t)))
    ensures Refused(ThreadStep(s, t, env).sh.store, PcOf(ThreadStep(s, t, env), t), id)
  {
    hide Serve, Next, RequestOf, Enabled, SharedOK, ThreadOK, InstanceNext, Fits, StoreGrows;
    var pc := PcOf(s, t);
    var (after, reply) := Serve(s.sh, RequestOf(pc), env);
    ServeGrows(s.sh, RequestOf(pc), env);
    RefusedStable(s.sh.store, after.store, pc, id);
    ServeFits(s.sh, RequestOf(pc), env);
    if pc.InInstance? {
      ThreadStable(s.sh, after, pc);
      RefusedNext(after, pc.key, pc.base, pc.instance, pc.atInstance, reply, env.now, id);
      NextOfInstance(pc, reply, env.now);
    } else {
      RestingStays(pc, reply, env.now);
    }
  }

  lemma StepRefused(s: State, a: Action, t: Tid, id: string)
    requires Inv(s) && NoDelete(a) && !(a.Spawn? && a.t == t)
    requires Refused(s.sh.store, PcOf(s, t), id)
    ensures Refused(Step(s, a).sh.store, PcOf(Step(s, a), t), id)
  {
    hide Inv, Serve, Next, RequestOf, Enabled, Refused, StoreGrows, UserStep, StoreStep, NoDelete;
    if a.Thread? && a.t == t {
      if Enabled(s.sh, RequestOf(PcOf(s, t))) {
        CallRefused(s, t, a.env, id);
      }
    } else {
      StepGrows(s, a);
      RefusedStable(s.sh.store, Step(s, a).sh.store, PcOf(s, t), id);
    }
  }

  lemma {:induction false} RunRefused(s: State, t: Tid, id: string, actions: seq<Action>)
    requires Inv(s) && NoDeletes(actions) && NotRespawned(actions, t)
    requires Refused(s.sh.store, PcOf(s, t), id)
    ensures Refused(Run(s, actions).sh.store, PcOf(Run(s, actions), t), id)
    decreases |actions|
  {
    hide Inv, Step, Refused, NoDelete;
    if actions == [] {
    } else {
      var n := |actions| - 1;
      RunRefused(s, t, id, actions[..n]);
      RunFromKeeps(s, actions[..n]);
      StepRefused(Run(s, actions[..n]), actions[n], t, id);
    }
  }

  /**
   A create that first looks at the list when its ID is there never sends, in any run that follows:
   when it returns, it returns the error. Since the ID is listed for good, an instance that lost the
   write recording its cluster meets this refusal in every later reconcile.
   */
  lemma ListedNamesAreRefused(first: seq<Action>, t: Tid, actions: seq<Action>)
    requires NoDeletes(first) && NoDeletes(actions) && NotRespawned(actions, t)
    requires var s := Run(INITIAL, first);
             && PcOf(s, t).InInstance? && PcOf(s, t).atInstance.CreateHeader?
             && PcOf(s, t).atInstance.want.id in Ids(List(s.sh.store))
    ensures var s := Run(INITIAL, first);
            var later := Run(s, actions);
            var pc := PcOf(later, t);
            && PcOf(s, t).atInstance.want.id in Ids(List(later.sh.store))
            && !RequestOf(pc).SendAdd?
            && (pc.InInstance? && pc.atInstance.ErrorStatus? ==> pc.atInstance.message == ALREADY_EXISTS)
            && (pc.Returned? ==> pc.result == Err(ALREADY_EXISTS) || pc.result.RequeueErr?)
  {
    hide Run, NoDeletes, Inv, NotRespawned, RequestOf, ThreadOK;
    RunKeeps(first);
    var s := Run(INITIAL, first);
    var id := PcOf(s, t).atInstance.want.id;
    RunRefused(s, t, id, actions);
    RunGrows(s, actions);
    RunFromKeeps(s, actions);
    var later := Run(s, actions);
    NeverSends(later, t, id);
    assert Ids(List(s.sh.store)) <= Ids(List(later.sh.store));
  }

  // --------------------------------------------------------------- lost for good

  /** The ID that a create for this spec would make. */
  function WantedID(spec: InstanceSpec): string {
    Wanted(ProviderInstance(spec, EMPTY_INSTANCE_STATUS)).id
  }

  lemma WantedIDIs(o: ProviderInstance)
    ensures Wanted(o).id == WantedID(o.spec)
  {
  }

  /** The reconcile cannot record the listed ID: it has not scanned, or its snapshot shows the ID. */
  predicate CannotRecord(s: Store, pc: Pc, id: string)
    requires pc.InInstance?
  {
    match pc.atInstance
    case CreateScan(_, h, _) => h.len <= |List(s)| && id in Ids(List(s))[..h.len]
    case ReadyStatus => false
    case ReadyRetryStatus => false
    case _ => true
  }

  /** From version v on, the instance wants the ID and does not have it. */
  predicate Unrecorded(h: History<ProviderInstance>, v: nat, id: string) {
    forall w :: v <= w < |h| && h[w].Live? ==> h[w].obj.status.instanceID == "" && WantedID(h[w].obj.spec) == id
  }

  ghost predicate Orphaned(s: State, k: Key, v: nat, id: string) {
    var h := Hist(s.sh.instances, k);
    && v < |h| && Unrecorded(h, v, id)
    && id in Ids(List(s.sh.store))
    && forall t :: t in s.threads && s.threads[t].InInstance? && s.threads[t].key == k && v <= s.threads[t].base ==>
         CannotRecord(s.sh.store, s.threads[t], id)
  }

  /** Users do not give the instance another name. */
  predicate KeepsName(a: Action, k: Key, id: string) {
    a.User? && a.user.ApplyInstance? && a.user.key == k ==> WantedID(a.user.instanceSpec) == id
  }

  predicate KeepNames(actions: seq<Action>, k: Key, id: string) {
    forall i :: 0 <= i < |actions| ==> KeepsName(actions[i], k, id)
  }

  lemma CannotRecordStable(a: Store, b: Store, pc: Pc, id: string)
    requires StoreGrows(a, b) && pc.InInstance? && CannotRecord(a, pc, id)
    ensures CannotRecord(b, pc, id)
  {
    if pc.atInstance.CreateScan? {
      var n := pc.atInstance.h.len;
      assert |Ids(List(a))| <= |Ids(List(b))|;
      assert Ids(List(a))[..n] == Ids(List(b))[..n];
    }
  }

  /** The next point of a reconcile that read an unrecorded version. */
  lemma NextCannotRecord(
    sh: Shared, k: Key, base: nat, o: ProviderInstance, at: InstanceAt, reply: Reply, now: nat, id: string)
    requires ThreadOK(sh, InInstance(k, base, o, at)) && CannotRecord(sh.store, InInstance(k, base, o, at), id)
    requires Fits(sh, RequestOf(InInstance(k, base, o, at)), reply)
    requires Hist(sh.instances, k)[base].obj.status.instanceID == ""
          && WantedID(Hist(sh.instances, k)[base].obj.spec) == id
    requires id in Ids(List(sh.store))
    ensures var pc := InstanceNext(k, base, o, at, reply, now);
            pc.InInstance? ==> pc.base == base && CannotRecord(sh.store, pc, id)
  {
    hide Made, Conditions.SetStatusCondition, WithDetails, Wanted, WantedID, HasSuffix;
    WantedIDIs(o);
    match at
    case CreateHeader(_) => assert Ids(List(sh.store))[..|List(sh.store)|] == Ids(List(sh.store));
    case CreateScan(want, h, i) => StoreLaws.ScanIsNotOver(sh.store, h, i, id);
    case _ =>
  }

  lemma WriteKeepsUnrecorded(
    sh: Shared, k: Key, base: nat, o: ProviderInstance, at: InstanceAt, env: Env, v: nat, id: string)
    requires ThreadOK(sh, InInstance(k, base, o, at)) && Unrecorded(Hist(sh.instances, k), v, id)
    requires v < |Hist(sh.instances, k)| && (v <= base ==> CannotRecord(sh.store, InInstance(k, base, o, at), id))
    requires WritesStatus(at)
    ensures Unrecorded(Hist(UpdateInstance(sh, k, base, o.status, env).0.instances, k), v, id)
  {
    hide Made, List, WantedID;
  }

  lemma OrphanCall(s: State, t: Tid, env: Env, k: Key, v: nat, id: string)
    requires Inv(s) && Orphaned(s, k, v, id)
    ensures Orphaned(ThreadStep(s, t, env), k, v, id)
  {
    hide Serve, Next, RequestOf, Enabled, SharedOK, ThreadOK, InstanceNext, Fits, CannotRecord, Unrecorded,
      UpdateInstance, Grows;
    var pc := PcOf(s, t);
    if Enabled(s.sh, RequestOf(pc)) {
      var (after, reply) := Serve(s.sh, RequestOf(pc), env);
      var h := Hist(s.sh.instances, k);
      ServeGrows(s.sh, RequestOf(pc), env);
      GrowsWhat(s.sh, after, k);
      forall u | u in s.threads && s.threads[u].InInstance? && s.threads[u].key == k && v <= s.threads[u].base
        ensures CannotRecord(after.store, s.threads[u], id)
      {
        CannotRecordStable(s.sh.store, after.store, s.threads[u], id);
      }
      if pc.InInstance? && pc.key == k {
        OwnOrphanCall(s, t, env, k, v, id);
      } else {
        OthersLeaveItAlone(s.sh, pc, env, k);
        NewcomersCannotRecord(after.store, pc, reply, env.now, k, id);
      }
    }
  }

  lemma GrowsWhat(a: Shared, b: Shared, k: Key)
    requires Grows(a, b)
    ensures Hist(a.instances, k) <= Hist(b.instances, k) && StoreGrows(a.store, b.store)
    ensures forall id :: id in Ids(List(a.store)) ==> id in Ids(List(b.store))
  {
  }

  lemma NewcomersCannotRecord(s: Store, pc: Pc, reply: Reply, now: nat, k: Key, id: string)
    requires !(pc.InInstance? && pc.key == k)
    ensures var next := Next(pc, reply, now); next.InInstance? && next.key == k ==> CannotRecord(s, next, id)
  {
    hide InstanceNext, InventoryNext, ConnectionNext, List;
  }

  lemma OwnOrphanCall(s: State, t: Tid, env: Env, k: Key, v: nat, id: string)
    requires Inv(s) && Orphaned(s, k, v, id)
    requires PcOf(s, t).InInstance? && PcOf(s, t).key == k && Enabled(s.sh, RequestOf(PcOf(s, t)))
    ensures var (after, reply) := Serve(s.sh, RequestOf(PcOf(s, t)), env);
            var next := Next(PcOf(s, t), reply, env.now);
            && Unrecorded(Hist(after.instances, k), v, id)
            && (next.InInstance? && next.key == k && v <= next.base ==> CannotRecord(after.store, next, id))
  {
    hide Serve, Next, RequestOf, Enabled, SharedOK, ThreadOK, InstanceNext, Fits, CannotRecord, UpdateInstance, Grows;
    var pc := PcOf(s, t);
    var req := RequestOf(pc);
    var (after, reply) := Serve(s.sh, req, env);
    assert ThreadOK(s.sh, pc);
    ServeGrows(s.sh, req, env);
    GrowsWhat(s.sh, after, k);
    ServeFits(s.sh, req, env);
    ThreadStable(s.sh, after, pc);
    NextOfInstance(pc, reply, env.now);
    LiveBase(s.sh, pc);
    SameBase(k, pc.base, pc.instance, pc.atInstance, reply, env.now);
    if WritesStatus(pc.atInstance) {
      hide Unrecorded;
      WriterAsks(pc);
      UpdateIsServed(s.sh, req, env);
      WriteKeepsUnrecorded(s.sh, k, pc.base, pc.instance, pc.atInstance, env, v, id);
    } else {
      ReaderAsks(pc);
      OnlyStatusWrites(s.sh, req, env);
    }
    if v <= pc.base {
      CannotRecordStable(s.sh.store, after.store, pc, id);
      assert Unrecorded(Hist(s.sh.instances, k), v, id);
      NextCannotRecord(after, k, pc.base, pc.instance, pc.atInstance, reply, env.now, id);
    }
  }

  lemma LiveBase(sh: Shared, pc: Pc)
    requires ThreadOK(sh, pc) && pc.InInstance?
    ensures LiveAt(Hist(sh.instances, pc.key), pc.base) && !pc.atInstance.DetailsErrorStatus?
  {
    hide Made, List;
  }

  lemma WriterAsks(pc: Pc)
    requires pc.InInstance? && WritesStatus(pc.atInstance)
    ensures RequestOf(pc) == UpdateInstanceStatus(pc.key, pc.base, pc.instance.status)
  {
  }

  lemma OrphanStep(s: State, a: Action, k: Key, v: nat, id: string)
    requires Inv(s) && NoDelete(a) && KeepsName(a, k, id) && Orphaned(s, k, v, id)
    ensures Orphaned(Step(s, a), k, v, id)
  {
    hide Inv, ThreadStep, UserStep, StoreStep, CannotRecord, Unrecorded, Grows, NoDelete, Deletes;
    match a
    case Thread(t, env) =>
      hide Orphaned;
      OrphanCall(s, t, env, k, v, id);
    case Spawn(_, _) =>
    case Worker(w) =>
      if !w.AddSend? {
        StepGrows(s, a);
        OrphanShared(s, Step(s, a).sh, k, v, id);
      }
    case User(u) =>
      StepGrows(s, a);
      UserKeepsUnrecorded(s.sh, u, k, v, id);
      OrphanShared(s, Step(s, a).sh, k, v, id);
  }

  lemma OrphanShared(s: State, after: Shared, k: Key, v: nat, id: string)
    requires Orphaned(s, k, v, id) && Grows(s.sh, after) && Unrecorded(Hist(after.instances, k), v, id)
    ensures Orphaned(s.(sh := after), k, v, id)
  {
    hide CannotRecord, Unrecorded, Grows;
    GrowsWhat(s.sh, after, k);
    forall u | u in s.threads && s.threads[u].InInstance? && s.threads[u].key == k && v <= s.threads[u].base
      ensures CannotRecord(after.store, s.threads[u], id)
    {
      CannotRecordStable(s.sh.store, after.store, s.threads[u], id);
    }
  }

  lemma UserKeepsUnrecorded(sh: Shared, u: UserAction, k: Key, v: nat, id: string)
    requires v < |Hist(sh.instances, k)| && Unrecorded(Hist(sh.instances, k), v, id) && KeepsName(User(u), k, id)
    ensures Unrecorded(Hist(UserStep(sh, u).instances, k), v, id)
  {
    hide WantedID, AppliedInventory, AppliedConnection, Collected;
  }

  lemma {:induction false} OrphanRun(s: State, actions: seq<Action>, k: Key, v: nat, id: string)
    requires Inv(s) && NoDeletes(actions) && KeepNames(actions, k, id) && Orphaned(s, k, v, id)
    ensures Orphaned(Run(s, actions), k, v, id)
    decreases |actions|
  {
    hide Inv, Step, NoDelete, KeepsName, Orphaned;
    if actions == [] {
    } else {
      var n := |actions| - 1;
      OrphanRun(s, actions[..n], k, v, id);
      RunFromKeeps(s, actions[..n]);
      OrphanStep(Run(s, actions[..n]), actions[n], k, v, id);
    }
  }

  // ------------------------------------------------------- how it comes to be, and when

  /**
   The write that should record a created cluster does so exactly if the version its reconcile read is
   still the latest and the write is not refused. Otherwise the ID is nowhere but in the list.
   */
  lemma ReadyRecordsIffLatest(actions: seq<Action>, t: Tid, env: Env)
    requires NoDeletes(actions)
    requires PcOf(Run(INITIAL, actions), t).InInstance? && PcOf(Run(INITIAL, actions), t).atInstance.ReadyStatus?
    requires var s := Run(INITIAL, actions);
             var h := Hist(s.sh.instances, PcOf(s, t).key);
             LiveAt(h, PcOf(s, t).base) && h[PcOf(s, t).base].obj.status.instanceID == ""
    ensures var s := Run(INITIAL, actions);
            var pc := PcOf(s, t);
            var h, later := Hist(s.sh.instances, pc.key), Hist(Step(s, Thread(t, env)).sh.instances, pc.key);
            && pc.instance.status.instanceID != ""
            && (later == h + [Live(pc.instance)] <==> pc.base == |h| - 1 && !env.fault.Rejected?)
            && (later == h <==> !(pc.base == |h| - 1 && !env.fault.Rejected?))
  {
    hide Run, NoDeletes, SharedOK, InstanceNext, Step, Made;
    RunKeeps(actions);
    var s := Run(INITIAL, actions);
    var pc := PcOf(s, t);
    assert ThreadOK(s.sh, pc);
    Write(s, t, pc.key, pc.base, pc.instance, pc.atInstance, env);
    assert Hist(s.sh.instances, pc.key)[pc.base].obj.(status := pc.instance.status) == pc.instance;
  }

  /** A create that is overtaken by an edit of its instance: the cluster is listed, and nobody recorded it. */
  lemma MakesAnOrphan(s: State, t: Tid, k: Key, v: nat, iv: nat, spec: InstanceSpec) returns (after: State)
    requires Resting(PcOf(s, t)) && MayCreate(s.sh, k, v, iv) && v == |Hist(s.sh.instances, k)| - 1
    requires Wanted(Hist(s.sh.instances, k)[v].obj).id !in Ids(List(s.sh.store))
    requires spec != Hist(s.sh.instances, k)[v].obj.spec
    ensures Follows(s, after)
    ensures Wanted(Hist(s.sh.instances, k)[v].obj).id in Ids(List(after.sh.store))
    ensures Hist(after.sh.instances, k)
         == Hist(s.sh.instances, k) + [Live(Hist(s.sh.instances, k)[v].obj.(spec := spec))]
    ensures after.threads == s.threads[t := Returned(OkRequeue)]
  {
    hide Leads, Follows, Step, Wanted, List, Pipeline, StoreStep, MayCreate, WithDetails;
    MayCreateIs(s.sh, k, v, iv);
    var sent := CreatesUpToWrite(s, t, k, v, iv);
    var ready := Created(Hist(s.sh.instances, k)[v].obj);
    var writing := InInstance(k, v, ready, ReadyStatus);

    var edit := User(ApplyInstance(k, spec));
    FollowsByStep(s, sent, edit);
    var edited := Step(sent, edit);
    Edits(sent, k, v, spec);

    FollowsByStep(s, edited, Thread(t, Fine(0)));
    StaleWrite(edited.sh, k, v, ready);
    Write(edited, t, k, v, ready, ReadyStatus, Fine(0));
    WriteExits(writing, Conflict, 0);
    var lost := Step(edited, Thread(t, Fine(0)));
    assert lost.threads == s.threads[t := Returned(OkRequeue)];
    assert lost.sh.store == sent.sh.store;

    LeadsNowhere(lost, k);
    after := DrainsAll(lost, lost, k);
    LeadsFollows(lost, after, k, 0);
    FollowsOn(s, lost, after);
    LastIsIn(Pipeline(s.sh.store), Wanted(Hist(s.sh.instances, k)[v].obj));
  }

  lemma LastIsIn(clusters: seq<Cluster>, c: Cluster)
    ensures c.id in Ids(clusters + [c])
  {
    assert Ids(clusters + [c])[|clusters|] == c.id;
  }

  /** An orphan made from the operator's start: listed, wanted by its instance, and recorded nowhere. */
  lemma OrphanFromTheStart() returns (actions: seq<Action>)
    ensures NoDeletes(actions)
    ensures var s := Run(INITIAL, actions);
            var h := Hist(s.sh.instances, ONE);
            && |h| == 2 && h[1].Live?
            && Wanted(h[1].obj).id in Ids(List(s.sh.store))
            && (forall v :: 0 <= v < |h| ==> h[v].Live? && h[v].obj.status.instanceID == "")
            && s.threads == map[0 := Returned(OkRequeue)]
  {
    hide Run, Step, MayCreate, Wanted, List;
    SetupState();
    var s := Run(INITIAL, Setup());
    NewName();
    var spec := SAME_NAME.(parameters := SAME_NAME.parameters[PROVIDER_PARAMETER := "GCP"]);
    assert spec != SAME_NAME by { assert PROVIDER_PARAMETER !in SAME_NAME.parameters; }
    var after := MakesAnOrphan(s, 0, ONE, 0, 0, spec);
    SetupDeletesNothing();
    assert Follows(INITIAL, s);
    FollowsOn(INITIAL, s, after);
    actions :| NoDeletes(actions) && Run(INITIAL, actions) == after;
    SameWish(spec);
  }

  lemma SameWish(spec: InstanceSpec)
    requires spec == SAME_NAME.(parameters := SAME_NAME.parameters[PROVIDER_PARAMETER := "GCP"])
    ensures forall status :: Wanted(ProviderInstance(spec, status)).id == ID_PREFIX + "x"
  {
  }

  // ------------------------------------------------------------------- exactly when

  predicate RecordedAt(h: History<ProviderInstance>, v: nat) {
    LiveAt(h, v) && h[v].obj.status.instanceID != ""
  }

  /** A write over the latest version by a reconcile that has an ID. */
  lemma RecordsByWrite(s: State, t: Tid, k: Key, v: nat, o: ProviderInstance, at: InstanceAt) returns (after: State)
    requires LiveAt(Hist(s.sh.instances, k), v) && v == |Hist(s.sh.instances, k)| - 1
    requires Hist(s.sh.instances, k)[v].obj.status.instanceID == "" && o.status.instanceID != ""
    requires PcOf(s, t) == InInstance(k, v, o, at) && (at.ReadyStatus? || at.ReadyRetryStatus?)
    ensures Leads(s, after, k, 0)
    ensures RecordedAt(Hist(after.sh.instances, k), v + 1)
  {
    hide Leads, Step, InstanceNext, Calm;
    FineIsCalm(s, t, 0, k);
    LeadsByStep(s, Thread(t, Fine(0)), k);
    Write(s, t, k, v, o, at, Fine(0));
    after := Step(s, Thread(t, Fine(0)));
  }

  /** A goroutine that is not stopped by its scan goes on to record an ID. */
  lemma RecordsAfterAll(s: State, t: Tid, k: Key, id: string) returns (after: State)
    requires Inv(s) && t in s.threads && s.threads[t].InInstance? && s.threads[t].key == k
    requires var h := Hist(s.sh.instances, k);
             && LiveAt(h, s.threads[t].base) && s.threads[t].base == |h| - 1
             && h[|h| - 1].obj.status.instanceID == "" && WantedID(h[|h| - 1].obj.spec) == id
    requires !CannotRecord(s.sh.store, s.threads[t], id)
    ensures Leads(s, after, k, 0)
    ensures RecordedAt(Hist(after.sh.instances, k), s.threads[t].base + 1)
  {
    hide Leads, Step, SharedOK, Made, Wanted, WithDetails, InstanceInfo.Info, StoreStep, WantedID;
    var pc := s.threads[t];
    var v, o, at := pc.base, pc.instance, pc.atInstance;
    assert ThreadOK(s.sh, pc);
    if !at.CreateScan? {
      after := RecordsByWrite(s, t, k, v, o, at);
    } else {
      var want, h := at.want, at.h;
      WantedIDIs(o);
      var scanned := InInstance(k, v, o, CreateScan(want, h, h.len));
      assert s == With(s, t, pc);
      assert forall j :: 0 <= j < h.len ==> Ids(List(s.sh.store))[..h.len][j] == List(s.sh.store)[j].id;
      CreateScans(s, t, k, v, o, want, h, at.i, h.len, k);
      var roomy := MakeRoom(With(s, t, scanned), k);
      LeadsOn(s, With(s, t, scanned), roomy, k, 0, 0);
      Send(roomy, t, k, v, o, want, h);
      FineIsCalm(roomy, t, 0, k);
      var ready := WithPhase(WithDetails(o, want), Ready);
      var sent := State(Accept(roomy.sh, want, k), roomy.threads[t := InInstance(k, v, ready, ReadyStatus)]);
      LeadsOnByStep(s, roomy, Thread(t, Fine(0)), sent, k, 0);
      AcceptIs(roomy.sh, want, k);
      DetailsHaveID(o, want);
      after := RecordsByWrite(sent, t, k, v, ready, ReadyStatus);
      LeadsOn(s, sent, after, k, 0, 0);
    }
  }

  lemma DetailsHaveID(o: ProviderInstance, c: Cluster)
    ensures WithPhase(WithDetails(o, c), Ready).status.instanceID == c.id
  {
  }

  lemma CalmKeepsNames(s: State, actions: seq<Action>, k: Key, id: string)
    requires CalmFrom(s, actions, k) && Hist(s.sh.instances, k) != []
    ensures KeepNames(actions, k, id)
  {
    hide Run, Grows;
    CalmDeletesNothing(s, actions, k);
    forall n | 0 <= n < |actions|
      ensures KeepsName(actions[n], k, id)
    {
      RunGrows(s, actions[..n]);
      GrowsWhat(s.sh, Run(s, actions[..n]).sh, k);
      assert Calm(Run(s, actions[..n]), actions[n], k);
    }
  }

  /** A reconcile of the instance that read this version. */
  predicate OfVersion(pc: Pc, k: Key, v: nat) {
    pc.InInstance? && pc.key == k && pc.base == v
  }

  /**
   An instance that wants a listed ID and has none: it never gets one, in any continuation that keeps
   its name, exactly if no reconcile that read its latest version is past its scan, or scanning a list
   without the ID.
   */
  lemma OrphanIffNoneCanRecord(first: seq<Action>, k: Key)
    requires NoDeletes(first)
    requires var s := Run(INITIAL, first);
             var h := Hist(s.sh.instances, k);
             && NotDeleted(h) && h[|h| - 1].obj.status.instanceID == ""
             && Wanted(h[|h| - 1].obj).id in Ids(List(s.sh.store))
    ensures var s := Run(INITIAL, first);
            var h := Hist(s.sh.instances, k);
            var v, id := |h| - 1, Wanted(h[|h| - 1].obj).id;
            (forall t :: t in s.threads && OfVersion(s.threads[t], k, v) ==> CannotRecord(s.sh.store, s.threads[t], id))
            <==>
            (forall more :: NoDeletes(more) && KeepNames(more, k, id) ==>
               Unrecorded(Hist(Run(s, more).sh.instances, k), v, id))
  {
    hide Run, NoDeletes, Inv, CannotRecord, KeepNames, CalmFrom, Starts, Wanted, WantedID, List;
    var s := Run(INITIAL, first);
    var h := Hist(s.sh.instances, k);
    var v, id := |h| - 1, Wanted(h[|h| - 1].obj).id;
    RunKeeps(first);
    WantedIDIs(h[v].obj);
    BasesExist(s, k);
    if t :| t in s.threads && OfVersion(s.threads[t], k, v) && !CannotRecord(s.sh.store, s.threads[t], id) {
      var after := RecordsAfterAll(s, t, k, id);
      var more :| CalmFrom(s, more, k) && Run(s, more) == after && Starts(more) <= 0;
      CalmDeletesNothing(s, more, k);
      CalmKeepsNames(s, more, k, id);
      assert !Unrecorded(Hist(Run(s, more).sh.instances, k), v, id);
    } else {
      forall more | NoDeletes(more) && KeepNames(more, k, id)
        ensures Unrecorded(Hist(Run(s, more).sh.instances, k), v, id)
      {
        OrphanRun(s, more, k, v, id);
      }
    }
  }

  lemma BasesExist(s: State, k: Key)
    requires Inv(s)
    ensures forall t :: t in s.threads && s.threads[t].InInstance? && s.threads[t].key == k ==>
              s.threads[t].base < |Hist(s.sh.instances, k)|
  {
    hide SharedOK, InstanceThreadOK;
    forall t | t in s.threads && s.threads[t].InInstance? && s.threads[t].key == k
      ensures s.threads[t].base < |Hist(s.sh.instances, k)|
    {
      assert ThreadOK(s.sh, s.threads[t]);
    }
  }
}
