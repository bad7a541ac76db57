/** Exactly when a living connection that has both its artefacts loses one, in any run whatever. */
module Takeover {
  import opened Types
  import opened ClusterStore
  import opened Api
  import opened Reconcilers
  import opened Operator
  import opened Artefacts
  import opened Existence

  /** A reconcile of the connection puts what its own life wants, and nothing else. */
  predicate PutsOwn(pc: Pc, k: Key) {
    Reconciles(pc, k) ==>
      match pc.atConnection
      case SecretPut(_, _, secret) => secret == Owned(k, pc.connection.uid, SecretData())
      case ConfigMapPut(_, configMap) => configMap == Owned(k, pc.connection.uid, ConfigMapData())
      case _ => true
  }

  ghost predicate AllPutOwn(s: State, k: Key) {
    forall t :: t in s.threads ==> PutsOwn(s.threads[t], k)
  }

  lemma NextPutsOwn(pc: Pc, reply: Reply, now: nat, k: Key)
    ensures PutsOwn(Next(pc, reply, now), k)
  {
    hide InstanceNext, InventoryNext, ConnectionNext, Owned, SecretData, ConfigMapData;
    NextOfConnection(pc, reply, now, k);
    if Reconciles(pc, k) {
      NextOfOwn(k, pc.base, pc.connection, pc.atConnection, reply, now);
    }
  }

  lemma NextOfOwn(k: Key, base: nat, o: ProviderConnection, at: ConnectionAt, reply: Reply, now: nat)
    ensures PutsOwn(ConnectionNext(k, base, o, at, reply, now), k)
  {
    hide Claimed, Owned, SecretData, ConfigMapData, FailConnection, HaveConfigMap, ClusterInstance;
    forall existing, data {
      ClaimedIsOwned(k, o.uid, existing, data);
    }
    PutsNothing(k, base, o, now);
  }

  lemma PutsNothing(k: Key, base: nat, o: ProviderConnection, now: nat)
    ensures HaveConfigMap(k, base, o, now).InConnection? && HaveConfigMap(k, base, o, now).atConnection.BindStatus?
    ensures forall reason, message ::
              && FailConnection(k, base, o, reason, message, now).InConnection?
              && FailConnection(k, base, o, reason, message, now).atConnection.BindStatus?
  {
  }

  lemma {:induction false} RunsPutOwn(actions: seq<Action>, k: Key)
    ensures AllPutOwn(Run(INITIAL, actions), k)
    decreases |actions|
  {
    hide Step, AllPutOwn;
    if actions == [] {
      assert AllPutOwn(INITIAL, k) by { NobodyPuts(k); }
    } else {
      var n := |actions| - 1;
      RunsPutOwn(actions[..n], k);
      StepPutsOwn(Run(INITIAL, actions[..n]), actions[n], k);
    }
  }

  lemma NobodyPuts(k: Key)
    ensures AllPutOwn(INITIAL, k)
  {
  }

  lemma StepPutsOwn(s: State, a: Action, k: Key)
    requires AllPutOwn(s, k)
    ensures AllPutOwn(Step(s, a), k)
  {
    hide Serve, Next, RequestOf, Enabled, UserStep, StoreStep, Owned;
    if a.Thread? && Enabled(s.sh, RequestOf(PcOf(s, a.t))) {
      NextPutsOwn(PcOf(s, a.t), Serve(s.sh, RequestOf(PcOf(s, a.t)), a.env).1, a.env.now, k);
    }
  }

  // ---------------------------------------------------------------------- one step

  /** Users leave the connection's life and its artefacts alone. */
  predicate LeavesAlone(a: Action, k: Key) {
    a.User? ==> OffArtefacts(a.user, k) && !(a.user.DeleteConnection? && a.user.key == k)
  }

  /** The step takes an artefact over from the current life. */
  predicate Takes(s: State, a: Action, k: Key) {
    a.Thread? && TakesOver(s.sh, PcOf(s, a.t), a.env, k)
  }

  /** A put of any life over the newest artefact, which belongs to the life uid. */
  lemma PutOverNewest(
    h: History<Artefact>, k: Key, data: map<string, string>, uid: nat, other: nat, over: Option<nat>, env: Env)
    requires IsNewest(h, Owned(k, uid, data))
    ensures IsNewest(Put(h, over, Owned(k, other, data), env).0, Owned(k, uid, data))
       <==> !(other != uid && over == Some(|h| - 1) && !env.fault.Rejected?)
  {
  }

  /** The connection lives, and has both its artefacts. */
  predicate LivesWithBoth(s: State, k: Key, uid: nat) {
    IsCurrent(Hist(s.sh.connections, k), uid) && HasBoth(OwnOf(s.sh, k), k, uid)
  }

  lemma OwnPutKeepsBoth(s: State, t: Tid, env: Env, k: Key, uid: nat)
    requires LivesWithBoth(s, k, uid) && Reconciles(PcOf(s, t), k) && PutsOwn(PcOf(s, t), k)
    ensures IsCurrent(Hist(ThreadStep(s, t, env).sh.connections, k), uid)
    ensures HasBoth(OwnOf(ThreadStep(s, t, env).sh, k), k, uid) <==> !TakesOver(s.sh, PcOf(s, t), env, k)
  {
    hide SecretKey, ConfigMapKey, Put, IsNewest, Owned, SecretData, ConfigMapData, Next, Commit;
    var pc, own := PcOf(s, t), OwnOf(s.sh, k);
    match pc.atConnection
    case SecretPut(_, over, _) =>
      PutOverNewest(own.secrets, k, SecretData(), uid, pc.connection.uid, over, env);
    case ConfigMapPut(over, _) =>
      PutOverNewest(own.configMaps, k, ConfigMapData(), uid, pc.connection.uid, over, env);
    case BindStatus(_) => CommitKeepsLife(own.connections, pc.base, pc.connection.status, env, uid);
    case _ =>
  }

  lemma CommitKeepsLife(h: History<ProviderConnection>, base: nat, status: ConnectionStatus, env: Env, uid: nat)
    requires IsCurrent(h, uid)
    ensures LiveAt(h, base) ==> IsCurrent(Commit(h, base, h[base].obj.(status := status), env).0, uid)
  {
  }

  lemma UserKeepsBoth(s: State, u: UserAction, k: Key, uid: nat)
    requires LivesWithBoth(s, k, uid) && LeavesAlone(User(u), k)
    ensures LivesWithBoth(s.(sh := UserStep(s.sh, u)), k, uid)
  {
    hide SecretKey, ConfigMapKey, AppliedInstance, AppliedInventory, Deleted, Labels, SecretData, ConfigMapData;
    KeyNamespaces(k);
    assert Key(k.namespace, k.name) == k;
  }

  /**
   A step in which users leave the connection and its artefacts alone: a living connection that has
   both keeps both exactly unless a put of another life lands over one of them.
   */
  lemma StepKeepsBoth(s: State, a: Action, k: Key, uid: nat)
    requires AllPutOwn(s, k) && LivesWithBoth(s, k, uid) && LeavesAlone(a, k)
    ensures IsCurrent(Hist(Step(s, a).sh.connections, k), uid)
    ensures HasBoth(OwnOf(Step(s, a).sh, k), k, uid) <==> !Takes(s, a, k)
  {
    hide UserStep, StoreStep, ThreadStep, HasBoth, SecretKey, ConfigMapKey;
    match a
    case Thread(t, env) =>
      if Reconciles(PcOf(s, t), k) {
        OwnPutKeepsBoth(s, t, env, k, uid);
      } else {
        OthersKeepBoth(s, t, env, k);
      }
    case User(u) => UserKeepsBoth(s, u, k, uid);
    case Worker(_) => assert OwnOf(Step(s, a).sh, k) == OwnOf(s.sh, k);
    case Spawn(_, _) =>
  }

  lemma OthersKeepBoth(s: State, t: Tid, env: Env, k: Key)
    requires !Reconciles(PcOf(s, t), k)
    ensures OwnOf(ThreadStep(s, t, env).sh, k) == OwnOf(s.sh, k)
  {
    hide Serve, Next, RequestOf, Enabled, OwnOf;
    if Enabled(s.sh, RequestOf(PcOf(s, t))) {
      OnlyOwnReconciles(s.sh, PcOf(s, t), env, k);
    }
  }

  // ------------------------------------------------------------------ continuations

  predicate AllLeaveAlone(actions: seq<Action>, k: Key) {
    forall i :: 0 <= i < |actions| ==> LeavesAlone(actions[i], k)
  }

  /** No step of the continuation takes an artefact over. */
  ghost predicate NoneTaken(s: State, actions: seq<Action>, k: Key) {
    forall n :: 0 <= n < |actions| ==> !Takes(Run(s, actions[..n]), actions[n], k)
  }

  /** The connection has both artefacts at every point of the continuation. */
  ghost predicate KeepsBoth(s: State, actions: seq<Action>, k: Key, uid: nat) {
    forall n :: 0 <= n <= |actions| ==> HasBoth(OwnOf(Run(s, actions[..n]).sh, k), k, uid)
  }

  lemma NoneTakenByStep(s: State, actions: seq<Action>, k: Key, n: nat)
    requires |actions| == n + 1
    ensures NoneTaken(s, actions, k)
       <==> NoneTaken(s, actions[..n], k) && !Takes(Run(s, actions[..n]), actions[n], k)
  {
    hide Run, Takes;
    assert forall m :: 0 <= m < n ==> actions[..n][..m] == actions[..m] && actions[..n][m] == actions[m];
    if NoneTaken(s, actions, k) {
      forall m | 0 <= m < n
        ensures !Takes(Run(s, actions[..n][..m]), actions[..n][m], k)
      {
        assert !Takes(Run(s, actions[..m]), actions[m], k);
      }
    } else if NoneTaken(s, actions[..n], k) {
      forall m | 0 <= m < n
        ensures !Takes(Run(s, actions[..m]), actions[m], k)
      {
        assert !Takes(Run(s, actions[..n][..m]), actions[..n][m], k);
      }
    }
  }

  lemma KeepsBothByStep(s: State, actions: seq<Action>, k: Key, uid: nat, n: nat)
    requires |actions| == n + 1
    ensures KeepsBoth(s, actions, k, uid)
       <==> KeepsBoth(s, actions[..n], k, uid) && HasBoth(OwnOf(Run(s, actions).sh, k), k, uid)
  {
    hide Run, HasBoth, OwnOf;
    assert forall m :: 0 <= m <= n ==> actions[..n][..m] == actions[..m];
    assert actions[..n + 1] == actions;
    if KeepsBoth(s, actions, k, uid) {
      forall m | 0 <= m <= n
        ensures HasBoth(OwnOf(Run(s, actions[..n][..m]).sh, k), k, uid)
      {
        assert HasBoth(OwnOf(Run(s, actions[..m]).sh, k), k, uid);
      }
    } else if KeepsBoth(s, actions[..n], k, uid) && HasBoth(OwnOf(Run(s, actions).sh, k), k, uid) {
      forall m | 0 <= m <= n + 1
        ensures HasBoth(OwnOf(Run(s, actions[..m]).sh, k), k, uid)
      {
        assert m <= n ==> HasBoth(OwnOf(Run(s, actions[..n][..m]).sh, k), k, uid);
      }
    }
  }

  lemma {:induction false} LifeGoesThrough(s: State, actions: seq<Action>, k: Key, uid: nat)
    requires AllPutOwn(s, k) && LivesWithBoth(s, k, uid) && AllLeaveAlone(actions, k)
    ensures AllPutOwn(Run(s, actions), k)
    ensures KeepsBoth(s, actions, k, uid) <==> NoneTaken(s, actions, k)
    ensures KeepsBoth(s, actions, k, uid) ==> LivesWithBoth(Run(s, actions), k, uid)
    decreases |actions|
  {
    hide AllPutOwn, HasBoth, Step, LeavesAlone, Takes, IsCurrent, OwnOf;
    if actions == [] {
      assert actions[..0] == [];
    } else {
      var n := |actions| - 1;
      hide KeepsBoth, NoneTaken;
      LifeGoesThrough(s, actions[..n], k, uid);
      StepPutsOwn(Run(s, actions[..n]), actions[n], k);
      NoneTakenByStep(s, actions, k, n);
      KeepsBothByStep(s, actions, k, uid, n);
      if KeepsBoth(s, actions[..n], k, uid) {
        StepKeepsBoth(Run(s, actions[..n]), actions[n], k, uid);
      }
    }
  }

  /**
   From any state of any run in which a living connection has both its artefacts: while users leave it
   and them alone, it has both at every later point if and only if no put of another life lands over
   one of them.
   */
  lemma BothStayIffNoneTaken(first: seq<Action>, more: seq<Action>, k: Key, uid: nat)
    requires LivesWithBoth(Run(INITIAL, first), k, uid) && AllLeaveAlone(more, k)
    ensures KeepsBoth(Run(INITIAL, first), more, k, uid) <==> NoneTaken(Run(INITIAL, first), more, k)
  {
    hide Run, LivesWithBoth, AllPutOwn, KeepsBoth, NoneTaken;
    RunsPutOwn(first, k);
    LifeGoesThrough(Run(INITIAL, first), more, k, uid);
  }
}
