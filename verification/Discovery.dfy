/**
 DiscoverClusters holds no lock: it fixes the length once and then reads the shared slice again at
 each index, while workers append, reallocate and update under it. It is linearizable all the same.
 */
module Discovery {
  import opened Types
  import opened ClusterStore
  import InstanceInfo
  import opened Api
  import opened Reconcilers
  import opened Answers
  import opened Operator

  predicate AddsOnly(a: Action) {
    a.Worker? ==> Adds(a.store)
  }

  predicate NoPendingUpdate(s: Store) {
    s.updateBuf == [] && s.updateHand.None?
  }

  /** The goroutine is not started on something else. */
  predicate NotRespawned(actions: seq<Action>, t: Tid) {
    forall i :: 0 <= i < |actions| ==> !(actions[i].Spawn? && actions[i].t == t)
  }

  function Image(clusters: seq<Cluster>): (services: seq<DatabaseService>)
    ensures |services| == |clusters|
  {
    seq(|clusters|, i requires 0 <= i < |clusters| => ServiceOf(clusters[i]))
  }

  /** The image offers every cluster, in order, under its own ID and name and with its own info. */
  lemma ImageOffers(clusters: seq<Cluster>)
    ensures OffersEach(Image(clusters), clusters)
  {
    hide Offers, ServiceOf;
    forall i | 0 <= i < |clusters| ensures Offers(Image(clusters)[i], clusters[i]) {
      ServiceSays(clusters[i]);
    }
  }

  /** Where discovery stands, having read the length when the list was listed. */
  ghost predicate Discovering(pc: Pc, listed: seq<Cluster>, exact: bool) {
    match pc
    case InInventory(_, _, o, at) => (
      match at
      case DiscoverScan(n, found) => n == |listed| && |found| <= n && Shows(found, listed[..|found|], exact)
      case SyncStatus(failure) => failure.None? && Shows(o.status.services, listed, exact)
      case _ => false)
    case Returned(_) => true
    case _ => false
  }

  /** Contents and all, or the IDs only. */
  ghost predicate Shows(services: seq<DatabaseService>, clusters: seq<Cluster>, exact: bool) {
    && ServiceIds(services) == Ids(clusters)
    && (exact ==> services == Image(clusters))
  }

  /** The list still begins with what it was. */
  ghost predicate Continues(now: Store, listed: seq<Cluster>, exact: bool) {
    && Ids(listed) <= Ids(List(now))
    && (exact ==> listed <= List(now) && NoPendingUpdate(now))
  }

  lemma ShowsOneMore(found: seq<DatabaseService>, c: Cluster, now: Store, listed: seq<Cluster>, exact: bool)
    requires Continues(now, listed, exact) && |found| < |listed|
    requires Shows(found, listed[..|found|], exact) && c == List(now)[|found|]
    ensures Shows(found + [ServiceOf(c)], listed[..|found| + 1], exact)
  {
    var n := |found|;
    assert c.id == Ids(List(now))[n] == Ids(listed)[n] == listed[n].id;
    assert listed[..n + 1] == listed[..n] + [listed[n]];
    assert ServiceIds(found + [ServiceOf(c)]) == ServiceIds(found) + [c.id];
    assert Ids(listed[..n + 1]) == Ids(listed[..n]) + [listed[n].id];
    if exact {
      assert c == listed[n];
      assert Image(listed[..n + 1]) == Image(listed[..n]) + [ServiceOf(listed[n])];
    }
  }

  lemma ReadKeepsDiscovering(sh: Shared, pc: Pc, env: Env, listed: seq<Cluster>, exact: bool)
    requires Discovering(pc, listed, exact) && Continues(sh.store, listed, exact)
    requires Enabled(sh, RequestOf(pc))
    ensures var (_, reply) := Serve(sh, RequestOf(pc), env); Discovering(Next(pc, reply, env.now), listed, exact)
  {
    hide InstanceInfo.Info, WithSynced, Image;
    if pc.InInventory? && pc.atInventory.DiscoverScan? {
      var found := pc.atInventory.found;
      if |found| < |listed| {
        assert |Ids(listed)| <= |Ids(List(sh.store))|;
        hide Shows;
        ShowsOneMore(found, List(sh.store)[|found|], sh.store, listed, exact);
      } else {
        assert listed[..|found|] == listed;
        SyncKeepsServices(pc.inventory.(status := pc.inventory.status.(services := found)), env.now);
      }
    }
  }

  lemma SyncKeepsServices(o: ProviderInventory, now: nat)
    ensures WithSynced(o, ConditionTrue, SYNC_OK, now).status.services == o.status.services
  {
  }

  lemma StepContinues(s: State, a: Action, listed: seq<Cluster>, exact: bool)
    requires Continues(s.sh.store, listed, exact)
    requires NoDelete(a) && (exact ==> AddsOnly(a))
    ensures Continues(Step(s, a).sh.store, listed, exact)
  {
    hide Next, RequestOf, UserStep, StoreStep;
    var now := s.sh.store;
    match a
    case Worker(w) =>
      if !w.AddSend? {
        IdsGrow(now, w);
        if exact {
          ListGrows(now, w);
          NoUpdateAppears(now, w);
        }
      }
    case Thread(t, env) =>
      var req := RequestOf(PcOf(s, t));
      if Enabled(s.sh, req) && req.SendAdd? {
        IdsGrow(now, AddSend(req.cluster));
        SendsAreInvisible(now, req.cluster);
      } else if Enabled(s.sh, req) {
        OnlySendsTouchTheStore(s.sh, req, env);
      }
    case User(u) => UsersAreApart(s.sh, u);
    case Spawn(_, _) =>
  }

  lemma NoUpdateAppears(s: Store, w: StoreAction)
    requires NoPendingUpdate(s) && !Updates(w)
    ensures NoPendingUpdate(StoreStep(s, w))
  {
  }

  lemma SendsAreInvisible(s: Store, c: Cluster)
    ensures List(StoreStep(s, AddSend(c))) == List(s)
    ensures NoPendingUpdate(s) ==> NoPendingUpdate(StoreStep(s, AddSend(c)))
  {
  }

  lemma OnlySendsTouchTheStore(sh: Shared, req: Request, env: Env)
    requires Enabled(sh, req) && !req.SendAdd?
    ensures Serve(sh, req, env).0.store == sh.store
  {
  }

  lemma UsersAreApart(sh: Shared, u: UserAction)
    ensures UserStep(sh, u).store == sh.store
  {
  }

  lemma StepDiscovers(s: State, a: Action, t: Tid, listed: seq<Cluster>, exact: bool)
    requires Continues(s.sh.store, listed, exact) && Discovering(PcOf(s, t), listed, exact)
    requires NoDelete(a) && (exact ==> AddsOnly(a))
    requires !(a.Spawn? && a.t == t)
    ensures Discovering(PcOf(Step(s, a), t), listed, exact)
  {
    hide Discovering, Continues, Serve, Next, RequestOf, UserStep, StoreStep, Enabled;
    if a.Thread? && a.t == t && Enabled(s.sh, RequestOf(PcOf(s, t))) {
      ReadKeepsDiscovering(s.sh, PcOf(s, t), a.env, listed, exact);
    }
  }

  lemma {:induction false} DiscoveryProgress(s: State, t: Tid, listed: seq<Cluster>, exact: bool, actions: seq<Action>)
    requires Continues(s.sh.store, listed, exact) && Discovering(PcOf(s, t), listed, exact)
    requires NoDeletes(actions) && NotRespawned(actions, t)
    requires exact ==> forall i :: 0 <= i < |actions| ==> AddsOnly(actions[i])
    ensures Continues(Run(s, actions).sh.store, listed, exact)
    ensures Discovering(PcOf(Run(s, actions), t), listed, exact)
    decreases |actions|
  {
    hide Discovering, Continues, Step, AddsOnly;
    if actions == [] {
    } else {
      var n := |actions| - 1;
      DiscoveryProgress(s, t, listed, exact, actions[..n]);
      StepContinues(Run(s, actions[..n]), actions[n], listed, exact);
      StepDiscovers(Run(s, actions[..n]), actions[n], t, listed, exact);
    }
  }

  lemma LengthStarts(s: State, t: Tid, env: Env, exact: bool)
    requires PcOf(s, t).InInventory? && PcOf(s, t).atInventory.DiscoverLength?
    requires exact ==> NoPendingUpdate(s.sh.store)
    ensures Continues(Step(s, Thread(t, env)).sh.store, List(s.sh.store), exact)
    ensures Discovering(PcOf(Step(s, Thread(t, env)), t), List(s.sh.store), exact)
  {
    hide InstanceNext, ConnectionNext, StoreStep, WithSynced, InstanceInfo.Info;
    var listed := List(s.sh.store);
    assert Shows([], listed[..0], exact) by {
      assert ServiceIds([]) == Ids(listed[..0]) && Image(listed[..0]) == [];
    }
  }

  /**
   The discovery that reads the length in state s reports exactly the list of that moment, whatever
   runs between its reads: contents included when nothing is updated, and the ID sequence always.
   It is never out of range.
   */
  lemma DiscoveryIsLinearizable(s: State, t: Tid, env: Env, actions: seq<Action>)
    requires PcOf(s, t).InInventory? && PcOf(s, t).atInventory.DiscoverLength?
    requires NoDeletes(actions) && NotRespawned(actions, t)
    ensures var pc := PcOf(Run(Step(s, Thread(t, env)), actions), t);
            && !pc.Panicked?
            && (pc.InInventory? && pc.atInventory.SyncStatus? ==>
                  ServiceIds(pc.inventory.status.services) == Ids(List(s.sh.store)))
            && (pc.InInventory? && pc.atInventory.SyncStatus? && NoPendingUpdate(s.sh.store)
                && (forall i :: 0 <= i < |actions| ==> AddsOnly(actions[i])) ==>
                  && OffersEach(pc.inventory.status.services, List(s.sh.store))
                  && pc.inventory.status.services == Image(List(s.sh.store)))
  {
    hide Run, NoDeletes, AddsOnly, Image, OffersEach;
    ImageOffers(List(s.sh.store));
    hide Step, Continues;
    var listed := List(s.sh.store);
    LengthStarts(s, t, env, false);
    DiscoveryProgress(Step(s, Thread(t, env)), t, listed, false, actions);
    if NoPendingUpdate(s.sh.store) && forall i :: 0 <= i < |actions| ==> AddsOnly(actions[i]) {
      LengthStarts(s, t, env, true);
      DiscoveryProgress(Step(s, Thread(t, env)), t, listed, true, actions);
    }
  }
}
