/**
 The Secret and ConfigMap of a bound connection exist, for as long as users leave these two objects
 alone and no reconcile of another life of the connection takes them over: garbage collection included.
 */
module Existence {
  import opened Types
  import opened Conditions
  import opened ClusterStore
  import opened Api
  import opened Reconcilers
  import opened Operator
  import opened Invariants
  import opened Safety
  import opened Theorems
  import opened Artefacts

  /** What the operator writes into an artefact of this life of the connection. */
  function Owned(k: Key, uid: nat, data: map<string, string>): Artefact {
    Artefact(ConnectionController(k.name, uid), Labels(k), data)
  }

  /** All that concerns one connection: its own versions, and those of its two artefacts. */
  datatype Own = Own(
    connections: History<ProviderConnection>,
    secrets: History<Artefact>,
    configMaps: History<Artefact>)

  function OwnOf(sh: Shared, k: Key): Own {
    Own(Hist(sh.connections, k), Hist(sh.secrets, SecretKey(k)), Hist(sh.configMaps, ConfigMapKey(k)))
  }

  // ------------------------------------------------------------------- invariant

  /** A life's uid is the version it began with. */
  predicate UidsOK(h: History<ProviderConnection>) {
    forall v :: 0 <= v < |h| && h[v].Live? ==>
      && h[v].obj.uid <= v
      && match Previous(h, v)
         case None => h[v].obj.uid == v
         case Some(before) => h[v].obj.uid == before.uid
  }

  /** Every version is the operator's, and one of the current life is still there. */
  predicate Tidy(h: History<Artefact>, k: Key, data: map<string, string>, owners: History<ProviderConnection>) {
    forall v :: 0 <= v < |h| && h[v].Live? ==>
      && h[v].obj.controller.ConnectionController?
      && var uid := h[v].obj.controller.uid;
         && h[v].obj == Owned(k, uid, data) && uid < |owners|
         && (IsCurrent(owners, uid) ==> h[|h| - 1] == h[v])
  }

  predicate HasBoth(own: Own, k: Key, uid: nat) {
    IsNewest(own.secrets, Owned(k, uid, SecretData())) && IsNewest(own.configMaps, Owned(k, uid, ConfigMapData()))
  }

  predicate Refers(o: ProviderConnection, k: Key) {
    && o.status.credentialsRef == Some(SecretKey(k).name)
    && o.status.connectionInfoRef == Some(ConfigMapKey(k).name)
  }

  predicate BoundHasBoth(own: Own, k: Key) {
    forall v :: 0 <= v < |own.connections| && own.connections[v].Live? && Bound(own.connections[v].obj)
                && IsCurrent(own.connections, own.connections[v].obj.uid) ==>
      Refers(own.connections[v].obj, k) && HasBoth(own, k, own.connections[v].obj.uid)
  }

  predicate OwnOK(own: Own, k: Key) {
    && UidsOK(own.connections)
    && Tidy(own.secrets, k, SecretData(), own.connections)
    && Tidy(own.configMaps, k, ConfigMapData(), own.connections)
    && BoundHasBoth(own, k)
  }

  /** What a reconcile of the connection knows about the artefacts; more, if its life is the current one. */
  predicate KnowsOwn(own: Own, k: Key, o: ProviderConnection, at: ConnectionAt) {
    var current := IsCurrent(own.connections, o.uid);
    var hasSecret := IsNewest(own.secrets, Owned(k, o.uid, SecretData()));
    match at
    case SecretPut(_, _, secret) => secret == Owned(k, o.uid, SecretData())
    case ConfigMapGet(_) => current ==> hasSecret
    case ConfigMapPut(_, configMap) => configMap == Owned(k, o.uid, ConfigMapData()) && (current ==> hasSecret)
    case BindStatus(_) => Bound(o) ==> Refers(o, k) && (current ==> HasBoth(own, k, o.uid))
    case _ => true
  }

  predicate ThreadKnowsOwn(sh: Shared, k: Key, pc: Pc) {
    Reconciles(pc, k) ==> KnowsOwn(OwnOf(sh, k), k, pc.connection, pc.atConnection)
  }

  ghost predicate ExistenceInv(s: State, k: Key) {
    OwnOK(OwnOf(s.sh, k), k) && forall t :: t in s.threads ==> ThreadKnowsOwn(s.sh, k, s.threads[t])
  }

  // ------------------------------------------------------------------ the proviso

  /** A put for one life lands over an artefact that another life, the current one, owns. */
  predicate LandsOver(
    h: History<Artefact>, k: Key, data: map<string, string>, owners: History<ProviderConnection>, uid: nat,
    over: Option<nat>, env: Env)
  {
    && NotDeleted(owners) && owners[|owners| - 1].obj.uid != uid
    && IsNewest(h, Owned(k, owners[|owners| - 1].obj.uid, data))
    && over == Some(|h| - 1) && !env.fault.Rejected?
  }

  /** The call takes an artefact away from the current life of the connection. */
  predicate TakesOver(sh: Shared, pc: Pc, env: Env, k: Key) {
    var own := OwnOf(sh, k);
    Reconciles(pc, k)
    && match pc.atConnection
       case SecretPut(_, over, _) =>
         LandsOver(own.secrets, k, SecretData(), own.connections, pc.connection.uid, over, env)
       case ConfigMapPut(over, _) =>
         LandsOver(own.configMaps, k, ConfigMapData(), own.connections, pc.connection.uid, over, env)
       case _ => false
  }

  /** The user's action is not on the connection's own Secret or ConfigMap; a collection is no user's. */
  predicate OffArtefacts(u: UserAction, k: Key) {
    && (u.ApplySecret? || u.DeleteSecret? ==> u.key != SecretKey(k))
    && (u.ApplyConfigMap? || u.DeleteConfigMap? ==> u.key != ConfigMapKey(k))
  }

  /**
   Users leave the connection's Secret and ConfigMap alone, and no put of another life lands over what
   the current life owns. The garbage collector may come at any time.
   */
  predicate Proper(s: State, a: Action, k: Key) {
    match a
    case User(u) => OffArtefacts(u, k)
    case Thread(t, env) => !TakesOver(s.sh, PcOf(s, t), env, k)
    case _ => true
  }

  ghost predicate ProperRun(actions: seq<Action>, k: Key) {
    forall n :: 0 <= n < |actions| ==> Proper(Run(INITIAL, actions[..n]), actions[n], k)
  }

  // ------------------------------------------------------------- what may change

  /** The artefacts of a life that goes on stay; no life comes back. */
  predicate KeepsOwn(a: Own, b: Own, k: Key) {
    forall uid :: 0 <= uid < |a.connections| && IsCurrent(b.connections, uid) ==>
      && IsCurrent(a.connections, uid)
      && (IsNewest(a.secrets, Owned(k, uid, SecretData())) ==> IsNewest(b.secrets, Owned(k, uid, SecretData())))
      && (IsNewest(a.configMaps, Owned(k, uid, ConfigMapData())) ==>
            IsNewest(b.configMaps, Owned(k, uid, ConfigMapData())))
  }

  lemma KnowsOwnStable(a: Own, b: Own, k: Key, o: ProviderConnection, at: ConnectionAt)
    requires KeepsOwn(a, b, k) && o.uid < |a.connections| && KnowsOwn(a, k, o, at)
    ensures KnowsOwn(b, k, o, at)
  {
    hide IsNewest, IsCurrent, Bound, Refers;
  }

  /** A put that does not land over what another, current life owns. */
  lemma PutIsTidy(
    h: History<Artefact>, k: Key, data: map<string, string>, owners: History<ProviderConnection>, uid: nat,
    over: Option<nat>, env: Env)
    requires Tidy(h, k, data, owners) && uid < |owners|
    requires !LandsOver(h, k, data, owners, uid, over, env)
    ensures var (after, reply) := Put(h, over, Owned(k, uid, data), env);
            && Tidy(after, k, data, owners)
            && (forall x :: IsCurrent(owners, x) && IsNewest(h, Owned(k, x, data)) ==>
                  IsNewest(after, Owned(k, x, data)))
            && (reply.Written? ==> IsNewest(after, Owned(k, uid, data)))
  {
  }

  /** The collector takes nothing of the current life. */
  lemma CollectIsTidy(h: History<Artefact>, k: Key, data: map<string, string>, sh: Shared)
    requires Tidy(h, k, data, Hist(sh.connections, k))
    ensures var after := Collected(sh, k.namespace, h);
            && Tidy(after, k, data, Hist(sh.connections, k))
            && (forall x :: IsCurrent(Hist(sh.connections, k), x) && IsNewest(h, Owned(k, x, data)) ==>
                  IsNewest(after, Owned(k, x, data)))
  {
    assert Key(k.namespace, k.name) == k;
  }

  /** New versions of the connection: of the same life, or of a new one with a uid nobody has used. */
  lemma OwnersMove(h: History<Artefact>, k: Key, data: map<string, string>,
    owners: History<ProviderConnection>, more: History<ProviderConnection>)
    requires Tidy(h, k, data, owners) && owners <= more
    requires forall uid :: 0 <= uid < |owners| && IsCurrent(more, uid) ==> IsCurrent(owners, uid)
    ensures Tidy(h, k, data, more)
  {
  }

  lemma Tidies(own: Own, k: Key, more: History<ProviderConnection>)
    requires OwnOK(own, k) && own.connections <= more
    requires forall uid :: 0 <= uid < |own.connections| && IsCurrent(more, uid) ==> IsCurrent(own.connections, uid)
    ensures Tidy(own.secrets, k, SecretData(), more) && Tidy(own.configMaps, k, ConfigMapData(), more)
    ensures KeepsOwn(own, own.(connections := more), k)
  {
    hide Tidy, UidsOK, BoundHasBoth, IsNewest, IsCurrent;
    OwnersMove(own.secrets, k, SecretData(), own.connections, more);
    OwnersMove(own.configMaps, k, ConfigMapData(), own.connections, more);
  }

  lemma UidsGoOn(h: History<ProviderConnection>, o: ProviderConnection)
    requires UidsOK(h)
    requires if NotDeleted(h) then IsCurrent(h, o.uid) else o.uid == |h|
    ensures UidsOK(h + [Live(o)]) && UidsOK(h + [Gone])
    ensures forall uid :: IsCurrent(h + [Live(o)], uid) <==> uid == o.uid
  {
    var more := h + [Live(o)];
    forall v | 0 <= v < |more| && more[v].Live?
      ensures more[v].obj.uid <= v
      ensures match Previous(more, v)
              case None => more[v].obj.uid == v
              case Some(before) => more[v].obj.uid == before.uid
    {
      assert v < |h| ==> Previous(more, v) == Previous(h, v);
    }
  }

  /** One more version of the current life. */
  lemma LifeGoesOn(own: Own, k: Key, o: ProviderConnection)
    requires OwnOK(own, k) && IsCurrent(own.connections, o.uid)
    requires Bound(o) ==> Refers(o, k) && HasBoth(own, k, o.uid)
    ensures var after := own.(connections := own.connections + [Live(o)]); OwnOK(after, k) && KeepsOwn(own, after, k)
  {
    hide Tidy, UidsOK, IsNewest, Bound, Refers;
    UidsGoOn(own.connections, o);
    Tidies(own, k, own.connections + [Live(o)]);
  }

  lemma LifeEnds(own: Own, k: Key)
    requires OwnOK(own, k)
    ensures var after := own.(connections := own.connections + [Gone]); OwnOK(after, k) && KeepsOwn(own, after, k)
  {
    hide Tidy, UidsOK, IsNewest, Bound, Refers;
    UidsGoOn(own.connections, if NotDeleted(own.connections) then own.connections[|own.connections| - 1].obj
                              else ProviderConnection(|own.connections|, ConnectionSpec(k, ""),
                                    EMPTY_CONNECTION_STATUS));
    Tidies(own, k, own.connections + [Gone]);
  }

  /** A new life, with a uid that no artefact carries yet. */
  lemma LifeBegins(own: Own, k: Key, o: ProviderConnection)
    requires OwnOK(own, k) && !NotDeleted(own.connections) && o.uid == |own.connections| && !Bound(o)
    ensures var after := own.(connections := own.connections + [Live(o)]); OwnOK(after, k) && KeepsOwn(own, after, k)
  {
    hide Tidy, UidsOK, IsNewest, Bound, Refers;
    UidsGoOn(own.connections, o);
    Tidies(own, k, own.connections + [Live(o)]);
  }

  lemma NothingMoves(own: Own, k: Key)
    ensures KeepsOwn(own, own, k)
  {
  }

  lemma StatusMoves(own: Own, k: Key, base: nat, o: ProviderConnection, env: Env)
    requires OwnOK(own, k) && LiveAt(own.connections, base)
    requires o.(status := own.connections[base].obj.status) == own.connections[base].obj
    requires Bound(o) ==> Refers(o, k) && (IsCurrent(own.connections, o.uid) ==> HasBoth(own, k, o.uid))
    ensures var after := own.(connections := Commit(own.connections, base,
          own.connections[base].obj.(status := o.status), env).0);
            OwnOK(after, k) && KeepsOwn(own, after, k)
  {
    hide Bound, Refers, OwnOK, KeepsOwn, HasBoth;
    assert own.connections[base].obj.(status := o.status) == o;
    NothingMoves(own, k);
    if IsCurrent(own.connections, o.uid) {
      LifeGoesOn(own, k, o);
    }
  }

  lemma UserMoves(own: Own, k: Key, spec: ConnectionSpec)
    requires OwnOK(own, k)
    ensures var after := own.(connections := AppliedConnection(own.connections, spec));
            OwnOK(after, k) && KeepsOwn(own, after, k)
    ensures var after := own.(connections := Deleted(own.connections));
            OwnOK(after, k) && KeepsOwn(own, after, k)
  {
    hide Tidy, UidsOK, KeepsOwn, HasBoth, SecretKey, ConfigMapKey;
    var h := own.connections;
    NothingMoves(own, k);
    LifeEnds(own, k);
    if NotDeleted(h) {
      var last := h[|h| - 1].obj;
      assert Bound(last) ==> Refers(last, k) && HasBoth(own, k, last.uid);
      LifeGoesOn(own, k, last.(spec := spec));
    } else {
      LifeBegins(own, k, ProviderConnection(|h|, spec, EMPTY_CONNECTION_STATUS));
    }
  }

  lemma ArtefactsMove(own: Own, after: Own, k: Key)
    requires OwnOK(own, k) && after.connections == own.connections
    requires Tidy(after.secrets, k, SecretData(), own.connections)
          && Tidy(after.configMaps, k, ConfigMapData(), own.connections)
    requires forall x :: IsCurrent(own.connections, x) && IsNewest(own.secrets, Owned(k, x, SecretData())) ==>
               IsNewest(after.secrets, Owned(k, x, SecretData()))
    requires forall x :: IsCurrent(own.connections, x) && IsNewest(own.configMaps, Owned(k, x, ConfigMapData())) ==>
               IsNewest(after.configMaps, Owned(k, x, ConfigMapData()))
    ensures OwnOK(after, k) && KeepsOwn(own, after, k)
  {
    hide IsNewest, Refers, Tidy, Bound, IsCurrent;
  }

  // --------------------------------------------------------------------- the calls

  lemma OnlyOwnReconciles(sh: Shared, pc: Pc, env: Env, k: Key)
    requires Enabled(sh, RequestOf(pc)) && !Reconciles(pc, k)
    ensures OwnOf(Serve(sh, RequestOf(pc), env).0, k) == OwnOf(sh, k)
  {
    hide SecretKey, ConfigMapKey, Serve, UpdateConnection;
    var req := RequestOf(pc);
    CallIsolated(sh, pc, env, k);
    if req.UpdateConnectionStatus? {
      assert pc.InConnection? && req.key == pc.key != k;
      BindIsServed(sh, req, env);
      assert Hist(UpdateConnection(sh, req.key, req.base, req.connection, env).0.connections, k)
            == Hist(sh.connections, k)
        by { OtherUpdates(sh, req, env, k); }
    } else {
      OnlyPutsTouchArtefacts(sh, req, env);
    }
  }

  lemma OtherUpdates(sh: Shared, req: Request, env: Env, k: Key)
    requires req.UpdateConnectionStatus? && req.key != k
    ensures Hist(UpdateConnection(sh, req.key, req.base, req.connection, env).0.connections, k)
          == Hist(sh.connections, k)
  {
  }

  lemma BindIsServed(sh: Shared, req: Request, env: Env)
    requires req.UpdateConnectionStatus?
    ensures Serve(sh, req, env) == UpdateConnection(sh, req.key, req.base, req.connection, env)
  {
  }

  /** What an own call does to the triple, and what its reply then says. */
  lemma OwnCall(sh: Shared, pc: Pc, env: Env, k: Key)
    requires Reconciles(pc, k) && ThreadOK(sh, pc) && ThreadKnowsOwn(sh, k, pc) && OwnOK(OwnOf(sh, k), k)
    requires !TakesOver(sh, pc, env, k)
    ensures var (after, reply) := Serve(sh, RequestOf(pc), env);
            && OwnOK(OwnOf(after, k), k) && KeepsOwn(OwnOf(sh, k), OwnOf(after, k), k)
            && (pc.atConnection.SecretPut? && reply.Written? ==>
                  IsNewest(OwnOf(after, k).secrets, Owned(k, pc.connection.uid, SecretData())))
            && (pc.atConnection.ConfigMapPut? && reply.Written? ==>
                  IsNewest(OwnOf(after, k).configMaps, Owned(k, pc.connection.uid, ConfigMapData())))
  {
    hide SecretKey, ConfigMapKey, Put, Tidy, IsNewest, OwnOK, KeepsOwn, UidsOK, ConnectionThreadOK, Commit, Owned,
      Bound, Refers, Labels, SecretData, ConfigMapData, LandsOver;
    var o, own := pc.connection, OwnOf(sh, k);
    assert o.uid < |own.connections| by { UidExists(own, k, pc.base, o); }
    assert Tidy(own.secrets, k, SecretData(), own.connections)
          && Tidy(own.configMaps, k, ConfigMapData(), own.connections)
      by { OwnIsTidy(own, k); }
    match pc.atConnection
    case SecretPut(_, over, _) =>
      PutIsTidy(own.secrets, k, SecretData(), own.connections, o.uid, over, env);
      var put := Put(own.secrets, over, Owned(k, o.uid, SecretData()), env).0;
      assert OwnOf(Serve(sh, RequestOf(pc), env).0, k) == own.(secrets := put);
      ArtefactsMove(own, own.(secrets := put), k);
    case ConfigMapPut(over, _) =>
      PutIsTidy(own.configMaps, k, ConfigMapData(), own.connections, o.uid, over, env);
      var put := Put(own.configMaps, over, Owned(k, o.uid, ConfigMapData()), env).0;
      assert OwnOf(Serve(sh, RequestOf(pc), env).0, k) == own.(configMaps := put);
      ArtefactsMove(own, own.(configMaps := put), k);
    case BindStatus(_) =>
      StatusMoves(own, k, pc.base, o, env);
    case _ =>
      ArtefactsMove(own, own, k);
  }

  lemma OwnIsTidy(own: Own, k: Key)
    requires OwnOK(own, k)
    ensures UidsOK(own.connections)
    ensures Tidy(own.secrets, k, SecretData(), own.connections)
          && Tidy(own.configMaps, k, ConfigMapData(), own.connections)
  {
    hide UidsOK, Tidy, BoundHasBoth;
  }

  lemma UidExists(own: Own, k: Key, base: nat, o: ProviderConnection)
    requires OwnOK(own, k) && LiveAt(own.connections, base)
    requires o.(status := own.connections[base].obj.status) == own.connections[base].obj
    ensures o.uid < |own.connections|
  {
    hide Tidy, BoundHasBoth;
  }

  // ---------------------------------------------------------------- what comes next

  /** What a reply to the connection's own reconcile tells about its artefacts. */
  predicate TellsOwn(own: Own, k: Key, o: ProviderConnection, at: ConnectionAt, reply: Reply) {
    match at
    case SecretGet(_) =>
      reply.ArtefactRead? ==>
        LiveAt(own.secrets, reply.version) && own.secrets[reply.version].obj == reply.artefact
    case SecretPut(_, _, _) => reply.Written? ==> IsNewest(own.secrets, Owned(k, o.uid, SecretData()))
    case ConfigMapGet(_) =>
      reply.ArtefactRead? ==>
        LiveAt(own.configMaps, reply.version) && own.configMaps[reply.version].obj == reply.artefact
    case ConfigMapPut(_, _) => reply.Written? ==> IsNewest(own.configMaps, Owned(k, o.uid, ConfigMapData()))
    case _ => true
  }

  lemma ReadsTell(sh: Shared, pc: Pc, env: Env, k: Key)
    requires Reconciles(pc, k) && (pc.atConnection.SecretGet? || pc.atConnection.ConfigMapGet?)
    ensures var (after, reply) := Serve(sh, RequestOf(pc), env);
            TellsOwn(OwnOf(after, k), k, pc.connection, pc.atConnection, reply)
  {
    hide SecretKey, ConfigMapKey;
  }

  lemma FailedIsUnbound(o: ProviderConnection, reason: string, message: string, now: nat)
    requires OneOfEach(o.status.conditions)
    ensures var failed := WithBinding(o, ConditionFalse, reason, message, now); !Bound(failed) && failed.uid == o.uid
  {
    hide SetStatusCondition, OneOfEach, IsTrue;
    SetDecides(o.status.conditions, CONNECTION_READY, ConditionFalse, reason, message, now, CONNECTION_READY);
  }

  /** A version that reads as wanted is the newest, if it is of the current life. */
  lemma ReadIsNewest(
    h: History<Artefact>, k: Key, uid: nat, data: map<string, string>, owners: History<ProviderConnection>, v: nat)
    requires Tidy(h, k, data, owners) && LiveAt(h, v) && h[v].obj == Owned(k, uid, data) && IsCurrent(owners, uid)
    ensures IsNewest(h, Owned(k, uid, data))
  {
  }

  lemma ClaimedIsOwned(k: Key, uid: nat, existing: Artefact, data: map<string, string>)
    ensures Claimed(k, uid, existing, data).Some? ==> Claimed(k, uid, existing, data).value == Owned(k, uid, data)
    ensures Claimed(k, uid, EMPTY_ARTEFACT, data) == Some(Owned(k, uid, data))
  {
  }

  lemma BoundRefers(k: Key, base: nat, o: ProviderConnection, now: nat)
    ensures var pc := HaveConfigMap(k, base, o, now);
            && pc.InConnection? && pc.key == k && pc.atConnection.BindStatus?
            && Refers(pc.connection, k) && pc.connection.uid == o.uid
  {
  }

  lemma NextKnowsOwn(own: Own, k: Key, base: nat, o: ProviderConnection, at: ConnectionAt, reply: Reply, now: nat)
    requires OwnOK(own, k) && KnowsOwn(own, k, o, at) && TellsOwn(own, k, o, at, reply)
    requires OneOfEach(o.status.conditions)
    ensures var next := ConnectionNext(k, base, o, at, reply, now);
            next.InConnection? ==> next.connection.uid == o.uid && KnowsOwn(own, k, next.connection, next.atConnection)
  {
    hide OwnOK, IsNewest, IsCurrent, Bound, WithBinding, Refers, Claimed, Owned, HaveConfigMap, ClusterInstance,
      OneOfEach, Tidy, SecretData, ConfigMapData, SecretKey, ConfigMapKey;
    OwnIsTidy(own, k);
    forall reason, message {
      FailedIsUnbound(o, reason, message, now);
    }
    BoundRefers(k, base, o, now);
    match at
    case SecretGet(_) =>
      if reply.ArtefactRead? {
        ClaimedIsOwned(k, o.uid, reply.artefact, SecretData());
        if reply.artefact == Owned(k, o.uid, SecretData()) && IsCurrent(own.connections, o.uid) {
          ReadIsNewest(own.secrets, k, o.uid, SecretData(), own.connections, reply.version);
        }
      }
      ClaimedIsOwned(k, o.uid, EMPTY_ARTEFACT, SecretData());
    case ConfigMapGet(_) =>
      if reply.ArtefactRead? {
        ClaimedIsOwned(k, o.uid, reply.artefact, ConfigMapData());
        if reply.artefact == Owned(k, o.uid, ConfigMapData()) && IsCurrent(own.connections, o.uid) {
          ReadIsNewest(own.configMaps, k, o.uid, ConfigMapData(), own.connections, reply.version);
        }
      }
      ClaimedIsOwned(k, o.uid, EMPTY_ARTEFACT, ConfigMapData());
    case _ =>
  }

  // -------------------------------------------------------------------- all steps

  lemma NextOfConnection(pc: Pc, reply: Reply, now: nat, k: Key)
    ensures pc.InConnection? ==>
              Next(pc, reply, now) == ConnectionNext(pc.key, pc.base, pc.connection, pc.atConnection, reply, now)
    ensures !Reconciles(pc, k) && Reconciles(Next(pc, reply, now), k) ==>
          Next(pc, reply, now).atConnection.ServiceInventory?
  {
    hide InstanceNext, InventoryNext, ConnectionNext;
  }

  lemma ConditionsOK(sh: Shared, pc: Pc)
    requires ThreadOK(sh, pc) && pc.InConnection?
    ensures OneOfEach(pc.connection.status.conditions)
    ensures var h := Hist(sh.connections, pc.key);
            LiveAt(h, pc.base) && pc.connection.(status := h[pc.base].obj.status) == h[pc.base].obj
  {
    hide OneOfEach, List;
  }

  lemma ServiceKnowsNothing(sh: Shared, k: Key, pc: Pc)
    requires pc.InConnection? ==> pc.atConnection.ServiceInventory?
    ensures ThreadKnowsOwn(sh, k, pc)
  {
  }

  lemma CallKeepsExistence(s: State, t: Tid, env: Env, k: Key)
    requires Inv(s) && ExistenceInv(s, k) && Proper(s, Thread(t, env), k)
    ensures ExistenceInv(ThreadStep(s, t, env), k)
  {
    hide Serve, Next, RequestOf, Enabled, ThreadOK, SharedOK, OwnOK, KnowsOwn, KeepsOwn, OwnOf, TellsOwn,
      ConnectionNext;
    var pc := PcOf(s, t);
    if Enabled(s.sh, RequestOf(pc)) {
      var (after, reply) := Serve(s.sh, RequestOf(pc), env);
      if Reconciles(pc, k) {
        assert ThreadOK(s.sh, pc) && ThreadKnowsOwn(s.sh, k, pc);
        OwnCallKnows(s.sh, pc, env, k);
      } else {
        OnlyOwnReconciles(s.sh, pc, env, k);
        NothingMoves(OwnOf(s.sh, k), k);
        NextOfConnection(pc, reply, env.now, k);
        if Reconciles(Next(pc, reply, env.now), k) {
          ServiceKnowsNothing(after, k, Next(pc, reply, env.now));
        }
      }
      OthersKnow(s, after, k);
    }
  }

  lemma OthersKnow(s: State, after: Shared, k: Key)
    requires Inv(s) && ExistenceInv(s, k) && KeepsOwn(OwnOf(s.sh, k), OwnOf(after, k), k)
    ensures forall u :: u in s.threads ==> ThreadKnowsOwn(after, k, s.threads[u])
  {
    hide ThreadOK, SharedOK, OwnOK, KnowsOwn, KeepsOwn;
    forall u | u in s.threads
      ensures ThreadKnowsOwn(after, k, s.threads[u])
    {
      if Reconciles(s.threads[u], k) {
        assert ThreadOK(s.sh, s.threads[u]) && ThreadKnowsOwn(s.sh, k, s.threads[u]);
        ConditionsOK(s.sh, s.threads[u]);
        UidExists(OwnOf(s.sh, k), k, s.threads[u].base, s.threads[u].connection);
        KnowsOwnStable(OwnOf(s.sh, k), OwnOf(after, k), k, s.threads[u].connection, s.threads[u].atConnection);
      }
    }
  }

  lemma OwnCallKnows(sh: Shared, pc: Pc, env: Env, k: Key)
    requires Reconciles(pc, k) && ThreadOK(sh, pc) && ThreadKnowsOwn(sh, k, pc) && OwnOK(OwnOf(sh, k), k)
    requires Enabled(sh, RequestOf(pc))
    requires !TakesOver(sh, pc, env, k)
    ensures var (after, reply) := Serve(sh, RequestOf(pc), env);
            && OwnOK(OwnOf(after, k), k) && KeepsOwn(OwnOf(sh, k), OwnOf(after, k), k)
            && ThreadKnowsOwn(after, k, Next(pc, reply, env.now))
  {
    hide Serve, Next, RequestOf, Enabled, ThreadOK, OwnOK, KnowsOwn, KeepsOwn, OwnOf, ConnectionNext;
    var (after, reply) := Serve(sh, RequestOf(pc), env);
    OwnCall(sh, pc, env, k);
    ConditionsOK(sh, pc);
    UidExists(OwnOf(sh, k), k, pc.base, pc.connection) by { OwnConnections(sh, k); }
    KnowsOwnStable(OwnOf(sh, k), OwnOf(after, k), k, pc.connection, pc.atConnection);
    if pc.atConnection.SecretGet? || pc.atConnection.ConfigMapGet? {
      ReadsTell(sh, pc, env, k);
    }
    NextKnowsOwn(OwnOf(after, k), k, pc.base, pc.connection, pc.atConnection, reply, env.now);
    NextOfConnection(pc, reply, env.now, k);
  }

  lemma OwnConnections(sh: Shared, k: Key)
    ensures OwnOf(sh, k).connections == Hist(sh.connections, k)
  {
  }

  lemma UserKeepsExistence(s: State, u: UserAction, k: Key)
    requires Inv(s) && ExistenceInv(s, k) && Proper(s, User(u), k)
    ensures ExistenceInv(s.(sh := UserStep(s.sh, u)), k)
  {
    hide Inv, OwnOK, KnowsOwn, KeepsOwn, SecretKey, ConfigMapKey, AppliedInstance, AppliedInventory, AppliedConnection,
      Deleted, Tidy, IsNewest, Collected;
    var own, after := OwnOf(s.sh, k), UserStep(s.sh, u);
    NothingMoves(own, k);
    OwnIsTidy(own, k);
    match u {
      case ApplyConnection(_, spec) => UserMoves(own, k, spec);
      case DeleteConnection(_) => UserMoves(own, k, ConnectionSpec(k, ""));
      case CollectSecret(key) =>
        if key == SecretKey(k) {
          assert key.namespace == k.namespace by { KeyNamespaces(k); }
          CollectIsTidy(own.secrets, k, SecretData(), s.sh);
          ArtefactsMove(own, own.(secrets := Collected(s.sh, k.namespace, own.secrets)), k);
        }
      case CollectConfigMap(key) =>
        if key == ConfigMapKey(k) {
          assert key.namespace == k.namespace by { KeyNamespaces(k); }
          CollectIsTidy(own.configMaps, k, ConfigMapData(), s.sh);
          ArtefactsMove(own, own.(configMaps := Collected(s.sh, k.namespace, own.configMaps)), k);
        }
      case _ =>
    }
    OthersKnow(s, after, k);
  }

  lemma KeyNamespaces(k: Key)
    ensures SecretKey(k).namespace == k.namespace && ConfigMapKey(k).namespace == k.namespace
  {
  }

  lemma StepKeepsExistence(s: State, a: Action, k: Key)
    requires Inv(s) && ExistenceInv(s, k) && Proper(s, a, k)
    ensures ExistenceInv(Step(s, a), k)
  {
    hide Inv, ThreadStep, UserStep, StoreStep, OwnOK, KnowsOwn, Proper;
    match a
    case Thread(t, env) =>
      hide ExistenceInv;
      CallKeepsExistence(s, t, env, k);
    case User(u) =>
      hide ExistenceInv;
      UserKeepsExistence(s, u, k);
    case Spawn(t, start) =>
      if Starting(start) {
        ServiceKnowsNothing(s.sh, k, start);
      }
    case Worker(w) => assert OwnOf(Step(s, a).sh, k) == OwnOf(s.sh, k);
  }

  lemma InitialExistence(k: Key)
    ensures ExistenceInv(INITIAL, k)
  {
  }

  lemma {:induction false} ExistenceKept(actions: seq<Action>, k: Key)
    requires NoDeletes(actions) && ProperRun(actions, k)
    ensures ExistenceInv(Run(INITIAL, actions), k)
    decreases |actions|
  {
    hide Inv, Step, NoDelete, Proper, ExistenceInv;
    if actions == [] {
      InitialExistence(k);
    } else {
      var n := |actions| - 1;
      forall m | 0 <= m < n
        ensures Proper(Run(INITIAL, actions[..n][..m]), actions[..n][m], k)
      {
        assert actions[..n][..m] == actions[..m];
      }
      ExistenceKept(actions[..n], k);
      RunKeeps(actions[..n]);
      StepKeepsExistence(Run(INITIAL, actions[..n]), actions[n], k);
    }
  }

  /** The version belongs to the current life, and is bound. */
  predicate CurrentlyBound(h: History<ProviderConnection>, v: nat) {
    h != [] && OneLife(h, v, |h| - 1) && Bound(h[v].obj)
  }

  /** The object refers to its Secret and its ConfigMap by name, and both are there as this life wants them. */
  predicate HasArtefacts(sh: Shared, k: Key, o: ProviderConnection) {
    && o.status.credentialsRef == Some("cloud-user-credentials-" + k.name)
    && o.status.connectionInfoRef == Some("cloud-conn-cm-" + k.name)
    && IsNewest(Hist(sh.secrets, SecretKey(k)), Owned(k, o.uid, SecretData()))
    && IsNewest(Hist(sh.configMaps, ConfigMapKey(k)), Owned(k, o.uid, ConfigMapData()))
  }

  /**
   While users leave this connection's Secret and ConfigMap alone, and no put of another life lands over
   what its current life owns, every True version of the current life has its artefacts. Other
   connections, other objects of the users and the garbage collector do not matter.
   */
  lemma BoundConnectionsHaveArtefacts(actions: seq<Action>, k: Key, v: nat)
    requires NoDeletes(actions) && ProperRun(actions, k)
    requires CurrentlyBound(Hist(Run(INITIAL, actions).sh.connections, k), v)
    ensures HasArtefacts(Run(INITIAL, actions).sh, k, Hist(Run(INITIAL, actions).sh.connections, k)[v].obj)
  {
    hide Run, NoDeletes, ProperRun, OwnOK, KnowsOwn, CurrentlyBound, HasArtefacts;
    ExistenceKept(actions, k);
    BoundVersionHas(Run(INITIAL, actions).sh, k, v);
  }

  lemma BoundVersionHas(sh: Shared, k: Key, v: nat)
    requires OwnOK(OwnOf(sh, k), k) && CurrentlyBound(Hist(sh.connections, k), v)
    ensures HasArtefacts(sh, k, Hist(sh.connections, k)[v].obj)
  {
    hide Bound, Owned, IsNewest, Tidy;
    OneUid(Hist(sh.connections, k), v, |Hist(sh.connections, k)| - 1);
  }

  lemma {:induction false} OneUid(h: History<ProviderConnection>, v: nat, w: nat)
    requires UidsOK(h) && OneLife(h, v, w)
    ensures h[v].obj.uid == h[w].obj.uid
    decreases w
  {
    if v == w {
    } else {
      OneUid(h, v, w - 1);
    }
  }
}
