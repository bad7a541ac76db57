/** Status writes: when one is stored, and what the caller is told about it. */
module Writes {
  import opened Types
  import opened ClusterStore
  import opened Api
  import opened Reconcilers
  import opened Operator
  import opened Invariants
  import opened Safety
  import opened Quiescence
  import opened Walks
  import opened Race

  /** After the write of obj over version base, it is the newest version exactly if base was, or if it was already. */
  predicate StoredIffLatest<T(==)>(h: History<T>, after: History<T>, base: nat, obj: T, env: Env) {
    && (IsNewest(after, obj) <==> (base == |h| - 1 && !env.fault.Rejected?) || IsNewest(h, obj))
    && (base != |h| - 1 || env.fault.Rejected? ==> after == h)
  }

  lemma CommitLands<T>(h: History<T>, base: nat, obj: T, env: Env)
    requires LiveAt(h, base)
    ensures var (after, reply) := Commit(h, base, obj, env);
            && StoredIffLatest(h, after, base, obj, env)
            && (env.fault.NoFault? && NotDeleted(h) ==> if base == |h| - 1 then reply.Written? else reply.Conflict?)
  {
  }

  /** An error exit of an instance reconcile returns its error whether or not its status was stored. */
  ghost predicate ErrorExitIsSilent(s: State, t: Tid, env: Env)
    requires PcOf(s, t).InInstance? && PcOf(s, t).atInstance.ErrorStatus?
  {
    var pc, after := PcOf(s, t), Step(s, Thread(t, env));
    var h := Hist(s.sh.instances, pc.key);
    && StoredIffLatest(h, Hist(after.sh.instances, pc.key), pc.base, pc.instance, env)
    && (env.fault.NoFault? && NotDeleted(h) ==> PcOf(after, t) == Returned(Err(pc.atInstance.message)))
  }

  /** The second attempt of a Ready write returns success whether or not it was stored. */
  ghost predicate RetryIsSilent(s: State, t: Tid, env: Env)
    requires PcOf(s, t).InInstance? && PcOf(s, t).atInstance.ReadyRetryStatus?
  {
    var pc, after := PcOf(s, t), Step(s, Thread(t, env));
    var h := Hist(s.sh.instances, pc.key);
    && StoredIffLatest(h, Hist(after.sh.instances, pc.key), pc.base, pc.instance, env)
    && (env.fault.NoFault? && NotDeleted(h) ==> PcOf(after, t) == Returned(Ok))
  }

  /** The first attempt does say: it asks for a requeue exactly if the version was overtaken. */
  ghost predicate ReadyIsTold(s: State, t: Tid, env: Env)
    requires PcOf(s, t).InInstance? && PcOf(s, t).atInstance.ReadyStatus?
  {
    var pc, after := PcOf(s, t), Step(s, Thread(t, env));
    var h := Hist(s.sh.instances, pc.key);
    && StoredIffLatest(h, Hist(after.sh.instances, pc.key), pc.base, pc.instance, env)
    && (env.fault.NoFault? && NotDeleted(h) ==>
          PcOf(after, t) == Returned(if pc.base == |h| - 1 then Ok else OkRequeue))
  }

  /** The last write of an inventory reconcile, likewise. */
  ghost predicate SyncIsSilent(s: State, t: Tid, env: Env)
    requires PcOf(s, t).InInventory? && PcOf(s, t).atInventory.SyncStatus?
  {
    var pc, after := PcOf(s, t), Step(s, Thread(t, env));
    var h := Hist(s.sh.inventories, pc.key);
    && StoredIffLatest(h, Hist(after.sh.inventories, pc.key), pc.base, pc.inventory, env)
    && (env.fault.NoFault? && NotDeleted(h) ==> PcOf(after, t) == Returned(Outcome(pc.atInventory.failure)))
  }

  /** The last write of a connection reconcile, likewise. */
  ghost predicate BindIsSilent(s: State, t: Tid, env: Env)
    requires PcOf(s, t).InConnection? && PcOf(s, t).atConnection.BindStatus?
  {
    var pc, after := PcOf(s, t), Step(s, Thread(t, env));
    var h := Hist(s.sh.connections, pc.key);
    && StoredIffLatest(h, Hist(after.sh.connections, pc.key), pc.base, pc.connection, env)
    && (env.fault.NoFault? && NotDeleted(h) ==> PcOf(after, t) == Returned(Outcome(pc.atConnection.failure)))
  }

  function Outcome(failure: Option<string>): ReconcileResult {
    match failure
    case None => Ok
    case Some(message) => Err(message)
  }

  lemma InstanceWriteStep(s: State, t: Tid, env: Env)
    requires PcOf(s, t).InInstance? && WritesStatus(PcOf(s, t).atInstance) && ThreadOK(s.sh, PcOf(s, t))
    ensures PcOf(s, t).atInstance.ErrorStatus? ==> ErrorExitIsSilent(s, t, env)
    ensures PcOf(s, t).atInstance.ReadyStatus? ==> ReadyIsTold(s, t, env)
    ensures PcOf(s, t).atInstance.ReadyRetryStatus? ==> RetryIsSilent(s, t, env)
  {
    hide Step, InstanceNext, Commit, InstanceThreadOK, StoredIffLatest, NotDeleted;
    var pc := PcOf(s, t);
    var h := Hist(s.sh.instances, pc.key);
    assert h[pc.base].obj.(status := pc.instance.status) == pc.instance;
    Write(s, t, pc.key, pc.base, pc.instance, pc.atInstance, env);
    CommitLands(h, pc.base, pc.instance, env);
    var reply := UpdateInstance(s.sh, pc.key, pc.base, pc.instance.status, env).1;
    if reply.Written? || reply.Conflict? {
      WriteExits(pc, reply, env.now);
    }
  }

  lemma WriteExits(pc: Pc, reply: Reply, now: nat)
    requires pc.InInstance? && (reply.Written? || reply.Conflict?)
    ensures var next := InstanceNext(pc.key, pc.base, pc.instance, pc.atInstance, reply, now);
            && (pc.atInstance.ErrorStatus? ==> next == Returned(Err(pc.atInstance.message)))
            && (pc.atInstance.ReadyStatus? ==> next == Returned(if reply.Written? then Ok else OkRequeue))
            && (pc.atInstance.ReadyRetryStatus? ==> next == Returned(Ok))
  {
    hide WithInstanceCondition, HaveCluster, FailInstance, BeginCreate;
  }

  lemma SyncStep(s: State, t: Tid, env: Env)
    requires PcOf(s, t).InInventory? && PcOf(s, t).atInventory.SyncStatus? && ThreadOK(s.sh, PcOf(s, t))
    ensures SyncIsSilent(s, t, env)
  {
    hide InstanceNext, ConnectionNext, Commit, InventoryThreadOK, StoredIffLatest, NotDeleted, StoreStep;
    var pc := PcOf(s, t);
    var h := Hist(s.sh.inventories, pc.key);
    assert h[pc.base].obj.(status := pc.inventory.status) == pc.inventory;
    CommitLands(h, pc.base, pc.inventory, env);
  }

  lemma BindStep(s: State, t: Tid, env: Env)
    requires PcOf(s, t).InConnection? && PcOf(s, t).atConnection.BindStatus? && ThreadOK(s.sh, PcOf(s, t))
    ensures BindIsSilent(s, t, env)
  {
    hide InstanceNext, InventoryNext, Commit, ConnectionThreadOK, StoredIffLatest, NotDeleted, StoreStep,
      ClusterInstance, SecretRead, ConfigMapRead, FailConnection, HaveConfigMap;
    var pc := PcOf(s, t);
    var h := Hist(s.sh.connections, pc.key);
    assert h[pc.base].obj.(status := pc.connection.status) == pc.connection;
    CommitLands(h, pc.base, pc.connection, env);
  }

  /** The write goroutine t is about to make is stored exactly as it should be, and its outcome is what is told. */
  ghost predicate WriteIsHonest(s: State, t: Tid, env: Env) {
    var pc := PcOf(s, t);
    && (pc.InInstance? && pc.atInstance.ErrorStatus? ==> ErrorExitIsSilent(s, t, env))
    && (pc.InInstance? && pc.atInstance.ReadyStatus? ==> ReadyIsTold(s, t, env))
    && (pc.InInstance? && pc.atInstance.ReadyRetryStatus? ==> RetryIsSilent(s, t, env))
    && (pc.InInventory? && pc.atInventory.SyncStatus? ==> SyncIsSilent(s, t, env))
    && (pc.InConnection? && pc.atConnection.BindStatus? ==> BindIsSilent(s, t, env))
  }

  /**
   Whether a status write was stored, in every run and at every write there is: exactly if the version
   its reconcile read was still the latest and the write was not refused. What the reconcile returns
   is the same either way, but for the first Ready write, which asks for a requeue when overtaken.
   */
  lemma WritesAreStoredIffLatest(actions: seq<Action>, t: Tid, env: Env)
    requires NoDeletes(actions)
    ensures WriteIsHonest(Run(INITIAL, actions), t, env)
  {
    hide Run, NoDeletes, SharedOK, ThreadOK, ErrorExitIsSilent, ReadyIsTold, RetryIsSilent, SyncIsSilent, BindIsSilent;
    RunKeeps(actions);
    var s := Run(INITIAL, actions);
    var pc := PcOf(s, t);
    if pc.InInstance? && WritesStatus(pc.atInstance) {
      assert ThreadOK(s.sh, pc);
      InstanceWriteStep(s, t, env);
    } else if pc.InInventory? && pc.atInventory.SyncStatus? {
      assert ThreadOK(s.sh, pc);
      SyncStep(s, t, env);
    } else if pc.InConnection? && pc.atConnection.BindStatus? {
      assert ThreadOK(s.sh, pc);
      BindStep(s, t, env);
    }
  }

  // ------------------------------------------------------- a conflict nobody hears of

  lemma FindMissing(s: State, t: Tid, k: Key, v: nat, o: ProviderInstance, env: Env)
    requires PcOf(s, t) == InInstance(k, v, o, FindInventory)
    requires env.fault.NoFault? && !LiveAt(Hist(s.sh.inventories, o.spec.inventoryRef), env.version)
    ensures Step(s, Thread(t, env)) == With(s, t, FailInstance(k, v, o, INVENTORY_NOT_FOUND, env.message, env.now))
  {
    hide FailInstance, HaveCluster, WithDetails, InventoryNext, ConnectionNext, BeginCreate, StoreStep;
  }

  lemma StaleWrite(sh: Shared, k: Key, base: nat, o: ProviderInstance)
    requires LiveAt(Hist(sh.instances, k), base) && NotDeleted(Hist(sh.instances, k))
    requires base != |Hist(sh.instances, k)| - 1
    ensures var (after, reply) := UpdateInstance(sh, k, base, o.status, Fine(0));
            Hist(after.instances, k) == Hist(sh.instances, k) && reply == Conflict
  {
  }

  /**
   A reconcile that reads an instance, is overtaken by an edit of its spec, and cannot find the
   inventory: it returns the error as if it had been recorded, and nothing was stored.
   */
  lemma ConflictIsSwallowed(
    s: State, t: Tid, k: Key, v: nat, spec: InstanceSpec, message: string)
    returns (after: State)
    requires Resting(PcOf(s, t)) && LiveAt(Hist(s.sh.instances, k), v) && v == |Hist(s.sh.instances, k)| - 1
    requires spec != Hist(s.sh.instances, k)[v].obj.spec
    ensures Follows(s, after)
    ensures PcOf(after, t) == Returned(Err(message))
    ensures Hist(after.sh.instances, k)
         == Hist(s.sh.instances, k) + [Live(Hist(s.sh.instances, k)[v].obj.(spec := spec))]
  {
    hide Follows, Step, WithInstanceCondition, StoreStep;
    var h := Hist(s.sh.instances, k);
    var read := WithPhase(h[v].obj, Unknown);
    var finding := InInstance(k, v, read, FindInventory);
    FollowsSelf(s);
    FollowsByStep(s, s, Spawn(t, InstanceStart(k)));
    FollowsByStep(s, Step(s, Spawn(t, InstanceStart(k))), Thread(t, Fine(v)));
    Begin(s, t, k, v);

    var found := With(s, t, finding);
    var edit := User(ApplyInstance(k, spec));
    FollowsByStep(s, found, edit);
    var edited := Step(found, edit);
    Edits(found, k, v, spec);

    var missing := Env(|Hist(s.sh.inventories, read.spec.inventoryRef)|, NoFault, message, 0);
    var failing := InInstance(k, v, WithInstanceCondition(read, ConditionFalse, INVENTORY_NOT_FOUND, message, 0),
          ErrorStatus(message));
    FollowsByStep(s, edited, Thread(t, missing));
    WithTwice(s, t, finding, failing);
    FindMissing(edited, t, k, v, read, missing);

    var written := With(edited, t, failing);
    FollowsByStep(s, written, Thread(t, Fine(0)));
    after := Step(written, Thread(t, Fine(0)));
    StaleWrite(written.sh, k, v, failing.instance);
    Write(written, t, k, v, failing.instance, ErrorStatus(message), Fine(0));
    WriteExits(failing, Conflict, 0);
  }

  lemma Edits(s: State, k: Key, v: nat, spec: InstanceSpec)
    requires LiveAt(Hist(s.sh.instances, k), v) && v == |Hist(s.sh.instances, k)| - 1
    requires spec != Hist(s.sh.instances, k)[v].obj.spec
    ensures var h, after := Hist(s.sh.instances, k), Step(s, User(ApplyInstance(k, spec)));
            after == s.(sh := s.sh.(instances := s.sh.instances[k := h + [Live(h[v].obj.(spec := spec))]]))
  {
    hide ThreadStep;
  }

  /** Such a run from the operator's start. */
  lemma ConflictIsSwallowedFromTheStart(k: Key, one: InstanceSpec, two: InstanceSpec, message: string)
    returns (actions: seq<Action>)
    requires one != two
    ensures NoDeletes(actions)
    ensures PcOf(Run(INITIAL, actions), 0) == Returned(Err(message))
    ensures Hist(Run(INITIAL, actions).sh.instances, k)
         == [Live(ProviderInstance(one, EMPTY_INSTANCE_STATUS)), Live(ProviderInstance(two, EMPTY_INSTANCE_STATUS))]
  {
    hide Run, NoDeletes, ThreadStep, StoreStep;
    var apply := User(ApplyInstance(k, one));
    var applied := Step(INITIAL, apply);
    assert Hist(applied.sh.instances, k) == [Live(ProviderInstance(one, EMPTY_INSTANCE_STATUS))]
          && applied.threads == map[];
    var after := ConflictIsSwallowed(applied, 0, k, 0, two, message);
    FollowsSelf(INITIAL);
    FollowsByStep(INITIAL, INITIAL, apply);
    FollowsOn(INITIAL, applied, after);
    actions :| NoDeletes(actions) && Run(INITIAL, actions) == after;
  }

  /** A Ready write that fails, other than by a conflict, is tried again with a condition. */
  lemma ReadyRefused(s: State, t: Tid, k: Key, v: nat, o: ProviderInstance, message: string)
    requires PcOf(s, t) == InInstance(k, v, o, ReadyStatus) && LiveAt(Hist(s.sh.instances, k), v)
    ensures Step(s, Thread(t, Env(0, Rejected, message, 0)))
         == State(s.sh.(instances := s.sh.instances[k := Hist(s.sh.instances, k)]),
                  s.threads[t := InInstance(k, v, WithInstanceCondition(o, ConditionTrue, READY, message, 0),
                        ReadyRetryStatus)])
  {
    hide InstanceNext, WithInstanceCondition;
    Write(s, t, k, v, o, ReadyStatus, Env(0, Rejected, message, 0));
    RefusedNext(k, v, o, message);
  }

  lemma RefusedNext(k: Key, v: nat, o: ProviderInstance, message: string)
    ensures InstanceNext(k, v, o, ReadyStatus, Failed(message), 0)
         == InInstance(k, v, WithInstanceCondition(o, ConditionTrue, READY, message, 0), ReadyRetryStatus)
  {
    hide WithInstanceCondition, HaveCluster, FailInstance, BeginCreate;
  }

  /**
   A create whose first Ready write is refused and whose second is overtaken by an edit: the reconcile
   returns success, asks for no requeue, and nothing of its status was stored.
   */
  lemma RetryConflictIsSwallowed(s: State, t: Tid, k: Key, v: nat, iv: nat, spec: InstanceSpec, message: string)
    returns (after: State)
    requires Resting(PcOf(s, t)) && MayCreate(s.sh, k, v, iv) && v == |Hist(s.sh.instances, k)| - 1
    requires Wanted(Hist(s.sh.instances, k)[v].obj).id !in Ids(List(s.sh.store))
    requires spec != Hist(s.sh.instances, k)[v].obj.spec
    ensures Follows(s, after)
    ensures after.threads == s.threads[t := Returned(Ok)]
    ensures Hist(after.sh.instances, k)
         == Hist(s.sh.instances, k) + [Live(Hist(s.sh.instances, k)[v].obj.(spec := spec))]
  {
    hide Follows, Step, Wanted, List, Pipeline, MayCreate, Created, WithInstanceCondition;
    MayCreateIs(s.sh, k, v, iv);
    var ready := Created(Hist(s.sh.instances, k)[v].obj);
    var again := InInstance(k, v, WithInstanceCondition(ready, ConditionTrue, READY, message, 0), ReadyRetryStatus);
    var sent := CreatesUpToWrite(s, t, k, v, iv);
    var refuse := Thread(t, Env(0, Rejected, message, 0));
    ReadyRefused(sent, t, k, v, ready, message);
    FollowsByStep(s, sent, refuse);
    var refused := Step(sent, refuse);

    var edit := User(ApplyInstance(k, spec));
    FollowsByStep(s, refused, edit);
    var edited := Step(refused, edit);
    Edits(refused, k, v, spec);

    FollowsByStep(s, edited, Thread(t, Fine(0)));
    StaleWrite(edited.sh, k, v, again.instance);
    Write(edited, t, k, v, again.instance, ReadyRetryStatus, Fine(0));
    WriteExits(again, Conflict, 0);
    after := Step(edited, Thread(t, Fine(0)));
    assert after.threads == s.threads[t := Returned(Ok)];
  }

  /** Such a run from the operator's start. */
  lemma RetryConflictFromTheStart(message: string) returns (actions: seq<Action>)
    ensures NoDeletes(actions)
    ensures var s := Run(INITIAL, actions);
            var h := Hist(s.sh.instances, ONE);
            && s.threads == map[0 := Returned(Ok)]
            && |h| == 2 && h[0].Live? && h[1].Live?
            && h[0].obj.status == EMPTY_INSTANCE_STATUS && h[1].obj.status == EMPTY_INSTANCE_STATUS
  {
    hide Run, Step, MayCreate, Wanted, List;
    SetupState();
    NewName();
    SetupDeletesNothing();
    var s := Run(INITIAL, Setup());
    var spec := SAME_NAME.(parameters := SAME_NAME.parameters[PROVIDER_PARAMETER := "GCP"]);
    assert spec != SAME_NAME by { assert PROVIDER_PARAMETER !in SAME_NAME.parameters; }
    var after := RetryConflictIsSwallowed(s, 0, ONE, 0, 0, spec, message);
    assert Follows(INITIAL, s);
    FollowsOn(INITIAL, s, after);
    actions :| NoDeletes(actions) && Run(INITIAL, actions) == after;
  }
}
