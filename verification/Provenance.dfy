/** Where things come from, in every run: each accepted create from a spec, each True from an inventory. */
module Provenance {
  import opened Types
  import opened Conditions
  import opened ClusterStore
  import opened Api
  import opened Reconcilers
  import opened Operator
  import opened Growth
  import opened Invariants
  import opened ThreadSteps
  import opened Safety
  import opened Theorems
  import opened Answers
  import opened Artefacts
  import E = Existence
  import P = AddPipeline

  // --------------------------------------------------------------- accepted creates

  /** Some version of the owner asked for this cluster. */
  ghost predicate AskedBy(sh: Shared, a: Accepted) {
    exists v: nat ::
      LiveAt(Hist(sh.instances, a.owner), v) && AsksFor(Hist(sh.instances, a.owner)[v].obj.spec, a.cluster)
  }

  ghost predicate AllAskedFor(sh: Shared) {
    forall i :: 0 <= i < |sh.log| ==> AskedBy(sh, sh.log[i])
  }

  lemma AskedStable(a: Shared, b: Shared, x: Accepted)
    requires Grows(a, b) && AskedBy(a, x)
    ensures AskedBy(b, x)
  {
    hide AsksFor, StoreGrows;
    var v: nat :|
      LiveAt(Hist(a.instances, x.owner), v) && AsksFor(Hist(a.instances, x.owner)[v].obj.spec, x.cluster);
    assert Hist(a.instances, x.owner) <= Hist(b.instances, x.owner);
    assert LiveAt(Hist(b.instances, x.owner), v);
  }

  lemma AllAskedStable(a: Shared, b: Shared)
    requires Grows(a, b) && AllAskedFor(a) && a.log == b.log
    ensures AllAskedFor(b)
  {
    hide Grows, AskedBy;
    forall i | 0 <= i < |b.log|
      ensures AskedBy(b, b.log[i])
    {
      AskedStable(a, b, a.log[i]);
    }
  }

  lemma SenderAsks(sh: Shared, pc: Pc)
    requires ThreadOK(sh, pc) && RequestOf(pc).SendAdd?
    ensures AskedBy(sh, Accepted(RequestOf(pc).cluster, RequestOf(pc).owner))
  {
    hide AsksFor, Wanted, Made;
    WantedSays(pc.instance);
    assert LiveAt(Hist(sh.instances, pc.key), pc.base);
  }

  lemma StepAsks(s: State, a: Action)
    requires Inv(s) && NoDelete(a) && AllAskedFor(s.sh)
    ensures AllAskedFor(Step(s, a).sh)
  {
    hide Inv, Next, RequestOf, UserStep, StoreStep, AllAskedFor, Grows, NoDelete, Accept;
    StepGrows(s, a);
    match a
    case Thread(t, env) =>
      var req := RequestOf(PcOf(s, t));
      if Enabled(s.sh, req) && req.SendAdd? {
        assert ThreadOK(s.sh, PcOf(s, t)) by { SendersAreOK(s, t); }
        SenderAsks(s.sh, PcOf(s, t));
        AcceptAsks(s.sh, req.cluster, req.owner);
      } else if Enabled(s.sh, req) {
        P.OnlySendsAreLogged(s.sh, req, env);
        AllAskedStable(s.sh, Step(s, a).sh);
      }
    case Worker(w) => AllAskedStable(s.sh, Step(s, a).sh);
    case User(u) =>
      P.UsersKeepTheLog(s.sh, u);
      AllAskedStable(s.sh, Step(s, a).sh);
    case Spawn(_, _) => AllAskedStable(s.sh, Step(s, a).sh);
  }

  lemma SendersAreOK(s: State, t: Tid)
    requires Inv(s) && RequestOf(PcOf(s, t)).SendAdd?
    ensures ThreadOK(s.sh, PcOf(s, t))
  {
    hide SharedOK, ThreadOK;
    IdleOK(s.sh);
  }

  lemma AcceptAsks(sh: Shared, c: Cluster, owner: Key)
    requires AllAskedFor(sh) && AskedBy(sh, Accepted(c, owner)) && |sh.store.addBuf| < CAPACITY
    ensures AllAskedFor(Accept(sh, c, owner))
  {
    hide AskedBy;
    var after := Accept(sh, c, owner);
    AcceptGrows(sh, c, owner);
    forall i | 0 <= i < |after.log|
      ensures AskedBy(after, after.log[i])
    {
      AskedStable(sh, after, after.log[i]);
    }
  }

  /**
   In every run, every accepted create is for the cluster that some version of its instance asks for:
   its name, the ID made from it, its provider or the default, and nothing else.
   */
  lemma {:induction false} AcceptedWereAskedFor(actions: seq<Action>)
    requires NoDeletes(actions)
    ensures AllAskedFor(Run(INITIAL, actions).sh)
    decreases |actions|
  {
    hide Inv, Step, NoDelete, AskedBy;
    if actions == [] {
    } else {
      hide AllAskedFor;
      var n := |actions| - 1;
      AcceptedWereAskedFor(actions[..n]);
      RunKeeps(actions[..n]);
      StepAsks(Run(INITIAL, actions[..n]), actions[n]);
    }
  }

  // ------------------------------------------------------------------ bound connections

  /** Some version of the connection's inventory is synced and lists its service. */
  ghost predicate Offered(sh: Shared, o: ProviderConnection) {
    exists v: nat ::
      && LiveAt(Hist(sh.inventories, o.spec.inventoryRef), v)
      && SaysSynced(Hist(sh.inventories, o.spec.inventoryRef)[v].obj)
      && Lists(Hist(sh.inventories, o.spec.inventoryRef)[v].obj, o.spec.databaseServiceID)
  }

  /** Every version of k that the controller made True was offered. */
  ghost predicate TruesOffered(sh: Shared, k: Key) {
    var h := Hist(sh.connections, k);
    forall v: nat :: ControllerWrote(h, v) && Bound(h[v].obj) ==> Offered(sh, h[v].obj)
  }

  /** Past its look at the inventory, a reconcile knows that its connection is offered. */
  ghost predicate KnowsOffer(sh: Shared, k: Key, pc: Pc) {
    Reconciles(pc, k) ==>
      match pc.atConnection
      case ServiceInventory => true
      case BindStatus(_) => Bound(pc.connection) ==> Offered(sh, pc.connection)
      case _ => Offered(sh, pc.connection)
  }

  ghost predicate OfferInv(s: State, k: Key) {
    TruesOffered(s.sh, k) && forall t :: t in s.threads ==> KnowsOffer(s.sh, k, s.threads[t])
  }

  lemma OfferedStable(a: Shared, b: Shared, o: ProviderConnection)
    requires Extends(a.inventories, b.inventories) && Offered(a, o)
    ensures Offered(b, o)
  {
    hide SaysSynced, Lists;
    var h := Hist(a.inventories, o.spec.inventoryRef);
    var v: nat :| LiveAt(h, v) && SaysSynced(h[v].obj) && Lists(h[v].obj, o.spec.databaseServiceID);
    assert h <= Hist(b.inventories, o.spec.inventoryRef);
    assert LiveAt(Hist(b.inventories, o.spec.inventoryRef), v);
  }

  lemma KnowsOfferStable(a: Shared, b: Shared, k: Key, pc: Pc)
    requires Extends(a.inventories, b.inventories) && KnowsOffer(a, k, pc)
    ensures KnowsOffer(b, k, pc)
  {
    hide Offered, Bound;
    if Reconciles(pc, k) && Offered(a, pc.connection) {
      OfferedStable(a, b, pc.connection);
    }
  }

  /** Only the reconcile's own look at the inventory can tell it that there is an offer. */
  lemma NextKnowsOffer(sh: Shared, k: Key, pc: Pc, reply: Reply, now: nat)
    requires ThreadOK(sh, pc) && KnowsOffer(sh, k, pc) && Fits(sh, RequestOf(pc), reply)
    ensures KnowsOffer(sh, k, Next(pc, reply, now))
  {
    hide InstanceNext, InventoryNext, ConnectionNext, ThreadOK, Offered, Fits;
    E.NextOfConnection(pc, reply, now, k);
    if Reconciles(pc, k) {
      E.ConditionsOK(sh, pc);
      if pc.atConnection.ServiceInventory? {
        LookKnowsOffer(sh, k, pc.base, pc.connection, reply, now);
      } else {
        LaterKnowsOffer(sh, k, pc.base, pc.connection, pc.atConnection, reply, now);
      }
    }
  }

  lemma LookKnowsOffer(sh: Shared, k: Key, base: nat, o: ProviderConnection, reply: Reply, now: nat)
    requires Fits(sh, RequestOf(InConnection(k, base, o, ServiceInventory)), reply) && OneOfEach(o.status.conditions)
    ensures KnowsOffer(sh, k, ConnectionNext(k, base, o, ServiceInventory, reply, now))
  {
    hide ClusterInstance, SaysSynced, Lists, FirstListed, OneOfEach, WithBinding, Bound, SecretRead, ConfigMapRead;
    forall reason, message {
      E.FailedIsUnbound(o, reason, message, now);
    }
    if reply.InventoryRead? {
      ClusterInstanceSays(reply.inventory, o.spec.databaseServiceID);
      assert LiveAt(Hist(sh.inventories, o.spec.inventoryRef), reply.version);
    }
  }

  lemma LaterKnowsOffer(
    sh: Shared, k: Key, base: nat, o: ProviderConnection, at: ConnectionAt, reply: Reply, now: nat)
    requires !at.ServiceInventory? && KnowsOffer(sh, k, InConnection(k, base, o, at)) && OneOfEach(o.status.conditions)
    ensures KnowsOffer(sh, k, ConnectionNext(k, base, o, at, reply, now))
  {
    hide ClusterInstance, SaysSynced, Lists, OneOfEach, Bound, Claimed, SetStatusCondition, Offered;
    SameOffer(sh, o);
    forall reason, message {
      E.FailedIsUnbound(o, reason, message, now);
    }
  }

  lemma SameOffer(sh: Shared, o: ProviderConnection)
    ensures forall p: ProviderConnection :: p.spec == o.spec ==> (Offered(sh, p) <==> Offered(sh, o))
  {
    hide SaysSynced, Lists;
  }

  lemma OthersKnowOffer(s: State, after: Shared, k: Key)
    requires OfferInv(s, k) && Grows(s.sh, after)
    ensures forall t :: t in s.threads ==> KnowsOffer(after, k, s.threads[t])
  {
    hide KnowsOffer, TruesOffered, StoreGrows;
    forall t | t in s.threads {
      KnowsOfferStable(s.sh, after, k, s.threads[t]);
    }
  }

  /** A new version is a user's, with the old status, or the controller's, with what it knows. */
  lemma TruesStay(a: Shared, b: Shared, k: Key)
    requires TruesOffered(a, k) && Grows(a, b)
    requires var h, after := Hist(a.connections, k), Hist(b.connections, k);
             || after == h
             || (|after| == |h| + 1 && (ControllerWrote(after, |h|) && Bound(after[|h|].obj) ==>
                   Offered(b, after[|h|].obj)))
    ensures TruesOffered(b, k)
  {
    hide Offered, Bound, StoreGrows;
    var h, after := Hist(a.connections, k), Hist(b.connections, k);
    assert h <= after;
    forall v: nat | ControllerWrote(after, v) && Bound(after[v].obj)
      ensures Offered(b, after[v].obj)
    {
      if v < |h| {
        assert ControllerWrote(h, v) && h[v] == after[v];
        OfferedStable(a, b, h[v].obj);
      }
    }
  }

  lemma CallKeepsOffers(s: State, t: Tid, env: Env, k: Key)
    requires Inv(s) && OfferInv(s, k)
    ensures OfferInv(ThreadStep(s, t, env), k)
  {
    hide Serve, Next, RequestOf, Enabled, SharedOK, ThreadOK, KnowsOffer, TruesOffered, Grows, Fits;
    var pc := PcOf(s, t);
    if Enabled(s.sh, RequestOf(pc)) {
      var (after, reply) := Serve(s.sh, RequestOf(pc), env);
      assert ThreadOK(s.sh, pc) && KnowsOffer(s.sh, k, pc) by { IdleOK(s.sh); IdleKnows(s.sh, k); }
      ServeGrows(s.sh, RequestOf(pc), env);
      ServeFits(s.sh, RequestOf(pc), env);
      ThreadStable(s.sh, after, pc);
      GrowsInventories(s.sh, after);
      KnowsOfferStable(s.sh, after, k, pc);
      NextKnowsOffer(after, k, pc, reply, env.now);
      OthersKnowOffer(s, after, k);
      ServeKeepsOffers(s.sh, pc, env, k);
    }
  }

  lemma IdleKnows(sh: Shared, k: Key)
    ensures KnowsOffer(sh, k, Idle)
  {
  }

  lemma GrowsInventories(a: Shared, b: Shared)
    requires Grows(a, b)
    ensures Extends(a.inventories, b.inventories)
  {
  }

  lemma ServeKeepsOffers(sh: Shared, pc: Pc, env: Env, k: Key)
    requires ThreadOK(sh, pc) && KnowsOffer(sh, k, pc) && TruesOffered(sh, k) && Enabled(sh, RequestOf(pc))
    ensures TruesOffered(Serve(sh, RequestOf(pc), env).0, k)
  {
    hide Serve, ThreadOK, TruesOffered, Grows, Offered, Bound, UpdateConnection;
    var after := Serve(sh, RequestOf(pc), env).0;
    ServeGrows(sh, RequestOf(pc), env);
    if Reconciles(pc, k) && pc.atConnection.BindStatus? {
      E.ConditionsOK(sh, pc);
      E.BindIsServed(sh, RequestOf(pc), env);
      BindAddsOne(sh, k, pc.base, pc.connection, env);
      SameOffer(after, pc.connection);
      if Bound(pc.connection) {
        GrowsInventories(sh, after);
        OfferedStable(sh, after, pc.connection);
      }
    } else if Reconciles(pc, k) {
      OnlyPutsTouchArtefacts(sh, RequestOf(pc), env);
    } else {
      E.OnlyOwnReconciles(sh, pc, env, k);
      E.OwnConnections(sh, k);
      E.OwnConnections(after, k);
    }
    TruesStay(sh, after, k);
  }

  lemma BindAddsOne(sh: Shared, k: Key, base: nat, o: ProviderConnection, env: Env)
    requires LiveAt(Hist(sh.connections, k), base)
    requires o.(status := Hist(sh.connections, k)[base].obj.status) == Hist(sh.connections, k)[base].obj
    ensures var h, after := Hist(sh.connections, k),
          Hist(UpdateConnection(sh, k, base, o.status, env).0.connections, k);
            after == h || after == h + [Live(o)]
  {
    assert Hist(sh.connections, k)[base].obj.(status := o.status) == o;
  }

  lemma UserKeepsOffers(s: State, u: UserAction, k: Key)
    requires OfferInv(s, k)
    ensures OfferInv(s.(sh := UserStep(s.sh, u)), k)
  {
    hide TruesOffered, KnowsOffer, Offered, Grows, Bound;
    UserGrows(s.sh, u);
    OthersKnowOffer(s, UserStep(s.sh, u), k);
    UsersWriteNoStatus(s.sh, u, k);
    TruesStay(s.sh, UserStep(s.sh, u), k);
  }

  lemma UsersWriteNoStatus(sh: Shared, u: UserAction, k: Key)
    ensures var h, after := Hist(sh.connections, k), Hist(UserStep(sh, u).connections, k);
            after == h || (|after| == |h| + 1 && h <= after && !ControllerWrote(after, |h|))
  {
    hide Collected, AppliedInstance, AppliedInventory;
  }

  lemma StepKeepsOffers(s: State, a: Action, k: Key)
    requires Inv(s) && NoDelete(a) && OfferInv(s, k)
    ensures OfferInv(Step(s, a), k)
  {
    hide Inv, ThreadStep, UserStep, StoreStep, TruesOffered, KnowsOffer, Grows, NoDelete, Deletes;
    match a
    case Thread(t, env) =>
      hide OfferInv;
      CallKeepsOffers(s, t, env, k);
    case User(u) =>
      hide OfferInv;
      UserKeepsOffers(s, u, k);
    case Spawn(_, start) =>
      if Starting(start) {
        StartKnows(s.sh, k, start);
      }
    case Worker(w) =>
      StepGrows(s, a);
      OthersKnowOffer(s, Step(s, a).sh, k);
      TruesStay(s.sh, Step(s, a).sh, k);
  }

  lemma StartKnows(sh: Shared, k: Key, pc: Pc)
    requires Starting(pc)
    ensures KnowsOffer(sh, k, pc)
  {
  }

  lemma {:induction false} OffersKept(actions: seq<Action>, k: Key)
    requires NoDeletes(actions)
    ensures OfferInv(Run(INITIAL, actions), k)
    decreases |actions|
  {
    hide Inv, Step, NoDelete, Offered, Bound;
    if actions == [] {
    } else {
      hide OfferInv;
      var n := |actions| - 1;
      OffersKept(actions[..n], k);
      RunKeeps(actions[..n]);
      StepKeepsOffers(Run(INITIAL, actions[..n]), actions[n], k);
    }
  }

  /**
   In every run, whenever ReadyForBinding=True is written, some version of the connection's inventory
   says that it is synced and lists the service that the connection names.
   */
  lemma BindingWasOffered(actions: seq<Action>, k: Key, v: nat)
    requires NoDeletes(actions)
    requires ControllerWrote(Hist(Run(INITIAL, actions).sh.connections, k), v)
    requires Bound(Hist(Run(INITIAL, actions).sh.connections, k)[v].obj)
    ensures Offered(Run(INITIAL, actions).sh, Hist(Run(INITIAL, actions).sh.connections, k)[v].obj)
  {
    hide Run, NoDeletes, Offered, Bound, KnowsOffer;
    OffersKept(actions, k);
  }
}
