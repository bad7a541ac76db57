/** The safety theorems of the operator, over every run in which nothing is deleted from the store. */
module Safety {
  import opened ClusterStore
  import opened Api
  import opened Reconcilers
  import opened Operator
  import opened Growth
  import opened Invariants
  import opened SharedSteps
  import opened ThreadSteps

  lemma NextOK(sh: Shared, pc: Pc, reply: Reply, now: nat)
    requires SharedOK(sh) && ThreadOK(sh, pc) && Fits(sh, RequestOf(pc), reply)
    ensures ThreadOK(sh, Next(pc, reply, now))
  {
    hide SharedOK, InstanceNext, InventoryNext, ConnectionNext, Fits, InstanceThreadOK, InventoryThreadOK,
      ConnectionThreadOK, LiveAt;
    match pc
    case InstanceStart(_) => StartNext(sh, pc, reply, now);
    case InventoryStart(_) => StartNext(sh, pc, reply, now);
    case ConnectionStart(_) => StartNext(sh, pc, reply, now);
    case InInstance(k, base, o, at) => InstanceNextOK(sh, k, base, o, at, reply, now);
    case InInventory(k, base, o, at) => InventoryNextOK(sh, k, base, o, at, reply, now);
    case InConnection(k, base, o, at) => ConnectionNextOK(sh, k, base, o, at, reply, now);
    case _ =>
  }

  /** A call keeps the shared state in order and leaves the caller knowing the truth. */
  lemma CallKeeps(sh: Shared, pc: Pc, env: Env)
    requires SharedOK(sh) && ThreadOK(sh, pc) && Enabled(sh, RequestOf(pc))
    ensures var (after, reply) := Serve(sh, RequestOf(pc), env);
            Grows(sh, after) && SharedOK(after) && ThreadOK(after, Next(pc, reply, env.now))
  {
    hide SharedOK, ThreadOK, Serve, Next, RequestOf, Enabled, Grows, Fits, RequestOK;
    var (after, reply) := Serve(sh, RequestOf(pc), env);
    RequestIsOK(sh, pc);
    ServeKeeps(sh, RequestOf(pc), env);
    ServeGrows(sh, RequestOf(pc), env);
    ThreadStable(sh, after, pc);
    ServeFits(sh, RequestOf(pc), env);
    NextOK(after, pc, reply, env.now);
  }

  lemma OthersKeep(s: State, after: Shared)
    requires Inv(s) && Grows(s.sh, after)
    ensures forall t :: t in s.threads ==> ThreadOK(after, s.threads[t])
  {
    hide SharedOK, ThreadOK, Grows;
    forall t | t in s.threads {
      ThreadStable(s.sh, after, s.threads[t]);
    }
  }

  lemma StepKeeps(s: State, a: Action)
    requires Inv(s) && NoDelete(a)
    ensures Inv(Step(s, a))
  {
    hide SharedOK, ThreadOK, Grows, Serve, Next, RequestOf, Enabled, UserStep, StoreStep, Deletes;
    match a
    case Spawn(t, start) =>
      if Starting(start) {
        StartOK(s.sh, start);
      }
    case Thread(t, env) =>
      var pc := PcOf(s, t);
      assert ThreadOK(s.sh, pc) by { IdleOK(s.sh); }
      if Enabled(s.sh, RequestOf(pc)) {
        CallKeeps(s.sh, pc, env);
        OthersKeep(s, Serve(s.sh, RequestOf(pc), env).0);
      }
    case Worker(w) =>
      if !w.AddSend? {
        WorkerKeeps(s.sh, w);
        WorkerGrows(s.sh, w);
        OthersKeep(s, s.sh.(store := StoreStep(s.sh.store, w)));
      }
    case User(u) =>
      UserKeeps(s.sh, u);
      UserGrows(s.sh, u);
      OthersKeep(s, UserStep(s.sh, u));
  }

  lemma IdleOK(sh: Shared)
    ensures ThreadOK(sh, Idle)
  {
  }

  lemma StartOK(sh: Shared, pc: Pc)
    requires Starting(pc)
    ensures ThreadOK(sh, pc)
  {
  }

  lemma InitialOK()
    ensures Inv(INITIAL)
  {
    assert Clusters([]) == [];
    assert SEEDS + [] == SEEDS;
    assert Pipeline(INITIAL_STORE) == SEEDS;
  }

  lemma {:induction false} RunFromKeeps(s: State, actions: seq<Action>)
    requires Inv(s) && NoDeletes(actions)
    ensures Inv(Run(s, actions))
    decreases |actions|
  {
    hide Inv, Step, NoDelete;
    if actions == [] {
    } else {
      var n := |actions| - 1;
      RunFromKeeps(s, actions[..n]);
      StepKeeps(Run(s, actions[..n]), actions[n]);
    }
  }

  /** The invariant of every run. */
  lemma RunKeeps(actions: seq<Action>)
    requires NoDeletes(actions)
    ensures Inv(Run(INITIAL, actions))
  {
    hide Inv, Run, INITIAL;
    InitialOK();
    RunFromKeeps(INITIAL, actions);
  }
}
