/** An artefact that somebody else controls is left alone, whatever versions of it a reconcile has read. */
module Neighbours {
  import opened Types
  import opened ClusterStore
  import opened Api
  import opened Reconcilers
  import opened Operator
  import opened Growth
  import opened Answers
  import opened Artefacts
  import E = Existence

  /** What a put was read from: a version that the connection may claim, or none. */
  predicate OverClaimable(h: History<Artefact>, over: Option<nat>, k: Key) {
    over.Some? ==> LiveAt(h, over.value) && Claimable(h[over.value].obj, k)
  }

  predicate PutsOverClaimable(sh: Shared, k: Key, pc: Pc) {
    Reconciles(pc, k) ==>
      match pc.atConnection
      case SecretPut(_, over, _) => OverClaimable(Hist(sh.secrets, SecretKey(k)), over, k)
      case ConfigMapPut(over, _) => OverClaimable(Hist(sh.configMaps, ConfigMapKey(k)), over, k)
      case _ => true
  }

  ghost predicate AllPutOverClaimable(s: State, k: Key) {
    forall t :: t in s.threads ==> PutsOverClaimable(s.sh, k, s.threads[t])
  }

  ghost predicate ArtefactsGrow(a: Shared, b: Shared) {
    Extends(a.secrets, b.secrets) && Extends(a.configMaps, b.configMaps)
  }

  lemma PutsStable(a: Shared, b: Shared, k: Key, pc: Pc)
    requires ArtefactsGrow(a, b) && PutsOverClaimable(a, k, pc)
    ensures PutsOverClaimable(b, k, pc)
  {
    hide SecretKey, ConfigMapKey;
    assert Hist(a.secrets, SecretKey(k)) <= Hist(b.secrets, SecretKey(k));
    assert Hist(a.configMaps, ConfigMapKey(k)) <= Hist(b.configMaps, ConfigMapKey(k));
  }

  /** A put is decided on by the look before it. */
  lemma CallPutsOverClaimable(sh: Shared, pc: Pc, env: Env, k: Key)
    requires Enabled(sh, RequestOf(pc))
    ensures var (after, reply) := Serve(sh, RequestOf(pc), env);
            PutsOverClaimable(after, k, Next(pc, reply, env.now))
  {
    hide Serve, Next, InstanceNext, InventoryNext, ConnectionNext, SecretKey, ConfigMapKey;
    var (after, reply) := Serve(sh, RequestOf(pc), env);
    E.NextOfConnection(pc, reply, env.now, k);
    if Reconciles(pc, k) {
      if pc.atConnection.SecretGet? || pc.atConnection.ConfigMapGet? {
        E.ReadsTell(sh, pc, env, k);
        LookPutsOverClaimable(after, k, pc.base, pc.connection, pc.atConnection, reply, env.now);
      } else {
        OthersPutNothing(k, pc.base, pc.connection, pc.atConnection, reply, env.now);
      }
    }
  }

  lemma LookPutsOverClaimable(
    sh: Shared, k: Key, base: nat, o: ProviderConnection, at: ConnectionAt, reply: Reply, now: nat)
    requires at.SecretGet? || at.ConfigMapGet?
    requires E.TellsOwn(E.OwnOf(sh, k), k, o, at, reply)
    ensures PutsOverClaimable(sh, k, ConnectionNext(k, base, o, at, reply, now))
  {
    hide WithBinding, SecretKey, ConfigMapKey, SecretData, ConfigMapData, Labels;
  }

  lemma OthersPutNothing(k: Key, base: nat, o: ProviderConnection, at: ConnectionAt, reply: Reply, now: nat)
    requires !at.SecretGet? && !at.ConfigMapGet?
    ensures var pc := ConnectionNext(k, base, o, at, reply, now);
            pc.InConnection? ==> !pc.atConnection.SecretPut? && !pc.atConnection.ConfigMapPut?
  {
    hide WithBinding, ClusterInstance, Claimed;
  }

  lemma StepPutsOverClaimable(s: State, a: Action, k: Key)
    requires AllPutOverClaimable(s, k)
    ensures AllPutOverClaimable(Step(s, a), k)
  {
    hide Serve, Next, RequestOf, Enabled, UserStep, StoreStep, PutsOverClaimable, ArtefactsGrow;
    StepGrowsArtefacts(s, a);
    forall t | t in s.threads {
      PutsStable(s.sh, Step(s, a).sh, k, s.threads[t]);
    }
    if a.Thread? && Enabled(s.sh, RequestOf(PcOf(s, a.t))) {
      CallPutsOverClaimable(s.sh, PcOf(s, a.t), a.env, k);
    }
    if a.Spawn? && Starting(a.start) {
      StartPutsNothing(Step(s, a).sh, k, a.start);
    }
  }

  lemma StartPutsNothing(sh: Shared, k: Key, pc: Pc)
    requires Starting(pc)
    ensures PutsOverClaimable(sh, k, pc)
  {
  }

  /** Versions of artefacts are never taken back, deletes from the store or not. */
  lemma StepGrowsArtefacts(s: State, a: Action)
    ensures ArtefactsGrow(s.sh, Step(s, a).sh)
  {
    hide Grows, Serve, RequestOf, Next, UserStep, StoreStep, Extends, Enabled;
    SameGrowsArtefacts(s.sh, Step(s, a).sh);
    match a
    case Thread(t, env) =>
      if Enabled(s.sh, RequestOf(PcOf(s, t))) {
        ServeGrows(s.sh, RequestOf(PcOf(s, t)), env);
        GrowsArtefacts(s.sh, Step(s, a).sh);
      }
    case User(u) =>
      UserGrows(s.sh, u);
      GrowsArtefacts(s.sh, Step(s, a).sh);
    case _ =>
  }

  lemma SameGrowsArtefacts(a: Shared, b: Shared)
    ensures a.secrets == b.secrets && a.configMaps == b.configMaps ==> ArtefactsGrow(a, b)
  {
  }

  lemma GrowsArtefacts(a: Shared, b: Shared)
    requires Grows(a, b)
    ensures ArtefactsGrow(a, b)
  {
    hide Extends, StoreGrows;
  }

  lemma {:induction false} RunsPutOverClaimable(actions: seq<Action>, k: Key)
    ensures AllPutOverClaimable(Run(INITIAL, actions), k)
    decreases |actions|
  {
    hide Step, PutsOverClaimable;
    if actions == [] {
    } else {
      hide AllPutOverClaimable;
      var n := |actions| - 1;
      RunsPutOverClaimable(actions[..n], k);
      StepPutsOverClaimable(Run(INITIAL, actions[..n]), actions[n], k);
    }
  }

  /** The newest version is there, and neither free nor the connection's. */
  predicate Foreign(h: History<Artefact>, k: Key) {
    NotDeleted(h) && !Claimable(h[|h| - 1].obj, k)
  }

  lemma PutLeavesForeign(h: History<Artefact>, k: Key, over: Option<nat>, a: Artefact, env: Env)
    requires Foreign(h, k) && OverClaimable(h, over, k)
    ensures Put(h, over, a, env).0 == h
  {
  }

  /**
   In every run: while somebody else controls the newest version of the Secret or ConfigMap of a
   connection's name, no call of any reconcile, of this connection or another, changes that object.
   */
  lemma ForeignIsLeftAlone(actions: seq<Action>, t: Tid, env: Env, k: Key)
    ensures var s := Run(INITIAL, actions);
            var after := Step(s, Thread(t, env));
            && (Foreign(Hist(s.sh.secrets, SecretKey(k)), k) ==>
                  Hist(after.sh.secrets, SecretKey(k)) == Hist(s.sh.secrets, SecretKey(k)))
            && (Foreign(Hist(s.sh.configMaps, ConfigMapKey(k)), k) ==>
                  Hist(after.sh.configMaps, ConfigMapKey(k)) == Hist(s.sh.configMaps, ConfigMapKey(k)))
  {
    hide Run, SecretKey, ConfigMapKey, PutsOverClaimable, Foreign, ThreadStep;
    RunsPutOverClaimable(actions, k);
    CallLeavesForeign(Run(INITIAL, actions), t, env, k);
  }

  lemma CallLeavesForeign(s: State, t: Tid, env: Env, k: Key)
    requires AllPutOverClaimable(s, k)
    ensures var after := ThreadStep(s, t, env);
            && (Foreign(Hist(s.sh.secrets, SecretKey(k)), k) ==>
                  Hist(after.sh.secrets, SecretKey(k)) == Hist(s.sh.secrets, SecretKey(k)))
            && (Foreign(Hist(s.sh.configMaps, ConfigMapKey(k)), k) ==>
                  Hist(after.sh.configMaps, ConfigMapKey(k)) == Hist(s.sh.configMaps, ConfigMapKey(k)))
  {
    hide Serve, Next, Enabled, SecretKey, ConfigMapKey, Foreign, Put;
    var pc := PcOf(s, t);
    if Enabled(s.sh, RequestOf(pc)) {
      if Reconciles(pc, k) {
        assert PutsOverClaimable(s.sh, k, pc);
        OnlyPutsTouchArtefacts(s.sh, RequestOf(pc), env);
        if pc.atConnection.SecretPut? && Foreign(Hist(s.sh.secrets, SecretKey(k)), k) {
          PutLeavesForeign(Hist(s.sh.secrets, SecretKey(k)), k, pc.atConnection.over, pc.atConnection.secret, env);
          PutIsServed(s.sh, SecretKey(k), pc.atConnection.over, pc.atConnection.secret, env);
        }
        if pc.atConnection.ConfigMapPut? && Foreign(Hist(s.sh.configMaps, ConfigMapKey(k)), k) {
          PutLeavesForeign(Hist(s.sh.configMaps, ConfigMapKey(k)), k, pc.atConnection.over,
                pc.atConnection.configMap, env);
          PutIsServed(s.sh, ConfigMapKey(k), pc.atConnection.over, pc.atConnection.configMap, env);
        }
      } else {
        CallIsolated(s.sh, pc, env, k);
      }
    }
  }

  lemma PutIsServed(sh: Shared, key: Key, over: Option<nat>, a: Artefact, env: Env)
    ensures Hist(Serve(sh, PutSecret(key, over, a), env).0.secrets, key) == Put(Hist(sh.secrets, key), over, a, env).0
    ensures Hist(Serve(sh, PutConfigMap(key, over, a), env).0.configMaps, key)
         == Put(Hist(sh.configMaps, key), over, a, env).0
  {
  }
}
