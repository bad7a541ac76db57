/** The Secret and ConfigMap of a connection are its own: no other connection touches them. */
module Artefacts {
  import opened Types
  import opened ClusterStore
  import opened Api
  import opened Reconcilers
  import opened Operator

  // ------------------------------------------------------------------ isolation

  /** A connection's artefacts are its own: the names determine it. */
  lemma ArtefactKeysInjective(j: Key, k: Key)
    ensures SecretKey(j) == SecretKey(k) ==> j == k
    ensures ConfigMapKey(j) == ConfigMapKey(k) ==> j == k
  {
    var secret, config := "cloud-user-credentials-", "cloud-conn-cm-";
    assert (secret + j.name)[|secret|..] == j.name && (secret + k.name)[|secret|..] == k.name;
    assert (config + j.name)[|config|..] == j.name && (config + k.name)[|config|..] == k.name;
  }

  /** The goroutine reconciles this connection. */
  predicate Reconciles(pc: Pc, k: Key) {
    pc.InConnection? && pc.key == k
  }

  lemma OnlyPutsTouchArtefacts(sh: Shared, req: Request, env: Env)
    requires Enabled(sh, req)
    ensures var after := Serve(sh, req, env).0;
            && (!req.PutSecret? ==> after.secrets == sh.secrets)
            && (!req.PutConfigMap? ==> after.configMaps == sh.configMaps)
            && (!req.UpdateConnectionStatus? ==> after.connections == sh.connections)
  {
  }

  lemma CallIsolated(sh: Shared, pc: Pc, env: Env, k: Key)
    requires Enabled(sh, RequestOf(pc)) && !Reconciles(pc, k)
    ensures var after := Serve(sh, RequestOf(pc), env).0;
            && Hist(after.secrets, SecretKey(k)) == Hist(sh.secrets, SecretKey(k))
            && Hist(after.configMaps, ConfigMapKey(k)) == Hist(sh.configMaps, ConfigMapKey(k))
  {
    hide SecretKey, ConfigMapKey, Put, UpdateInstance, UpdateInventory, UpdateConnection, Accept, ReadArtefact;
    OnlyPutsTouchArtefacts(sh, RequestOf(pc), env);
    if RequestOf(pc).PutSecret? || RequestOf(pc).PutConfigMap? {
      ArtefactKeysInjective(pc.key, k);
    }
  }

  predicate TouchesSecret(u: UserAction) {
    u.ApplySecret? || u.DeleteSecret? || u.CollectSecret?
  }

  predicate TouchesConfigMap(u: UserAction) {
    u.ApplyConfigMap? || u.DeleteConfigMap? || u.CollectConfigMap?
  }

  /** The step is not this connection's, nor a user's edit or a collection of its artefacts. */
  predicate Foreign(s: State, a: Action, k: Key) {
    match a
    case Thread(t, _) => !Reconciles(PcOf(s, t), k)
    case User(u) =>
      && (TouchesSecret(u) ==> u.key != SecretKey(k))
      && (TouchesConfigMap(u) ==> u.key != ConfigMapKey(k))
    case _ => true
  }

  ghost predicate AllForeign(s: State, actions: seq<Action>, k: Key) {
    forall n :: 0 <= n < |actions| ==> Foreign(Run(s, actions[..n]), actions[n], k)
  }

  lemma UserIsolated(sh: Shared, u: UserAction, secret: Key, configMap: Key)
    ensures !TouchesSecret(u) || u.key != secret ==>
              Hist(UserStep(sh, u).secrets, secret) == Hist(sh.secrets, secret)
    ensures !TouchesConfigMap(u) || u.key != configMap ==>
              Hist(UserStep(sh, u).configMaps, configMap) == Hist(sh.configMaps, configMap)
  {
    hide Deleted, Collected, AppliedInstance, AppliedInventory, AppliedConnection;
  }

  lemma StepIsolated(s: State, a: Action, k: Key)
    requires Foreign(s, a, k)
    ensures Hist(Step(s, a).sh.secrets, SecretKey(k)) == Hist(s.sh.secrets, SecretKey(k))
    ensures Hist(Step(s, a).sh.configMaps, ConfigMapKey(k)) == Hist(s.sh.configMaps, ConfigMapKey(k))
  {
    hide SecretKey, ConfigMapKey, Serve, Next, RequestOf, Enabled, UserStep, StoreStep;
    if a.Thread? && Enabled(s.sh, RequestOf(PcOf(s, a.t))) {
      CallIsolated(s.sh, PcOf(s, a.t), a.env, k);
    } else if a.User? {
      UserIsolated(s.sh, a.user, SecretKey(k), ConfigMapKey(k));
    }
  }

  /** Whatever all other connections' reconciles do, from any state, this one's artefacts stay as they are. */
  lemma {:induction false} ConnectionsAreIsolated(s: State, actions: seq<Action>, k: Key)
    requires AllForeign(s, actions, k)
    ensures Hist(Run(s, actions).sh.secrets, SecretKey(k)) == Hist(s.sh.secrets, SecretKey(k))
    ensures Hist(Run(s, actions).sh.configMaps, ConfigMapKey(k)) == Hist(s.sh.configMaps, ConfigMapKey(k))
    decreases |actions|
  {
    hide SecretKey, ConfigMapKey, Step, Foreign;
    if actions == [] {
    } else {
      var n := |actions| - 1;
      assert forall m :: 0 <= m <= n ==> actions[..n][..m] == actions[..m];
      ConnectionsAreIsolated(s, actions[..n], k);
      StepIsolated(Run(s, actions[..n]), actions[n], k);
    }
  }
}
