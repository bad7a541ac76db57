/** Runs that only add: the pipeline is the log itself, contents and all. */
module AddPipeline {
  import opened Types
  import opened ClusterStore
  import opened Api
  import opened Reconcilers
  import opened Operator
  import opened Invariants
  import opened Discovery

  predicate RunAddsOnly(actions: seq<Action>) {
    forall i :: 0 <= i < |actions| ==> AddsOnly(actions[i])
  }

  predicate ExactlyLogged(sh: Shared) {
    NoPendingUpdate(sh.store) && Pipeline(sh.store) == SEEDS + Clusters(sh.log)
  }

  lemma AcceptIsLogged(sh: Shared, c: Cluster, owner: Key)
    requires ExactlyLogged(sh) && |sh.store.addBuf| < CAPACITY
    ensures ExactlyLogged(Accept(sh, c, owner))
  {
    assert Clusters(sh.log + [Accepted(c, owner)]) == Clusters(sh.log) + [c];
    assert Pipeline(Accept(sh, c, owner).store) == Pipeline(sh.store) + [c];
  }

  lemma OnlySendsAreLogged(sh: Shared, req: Request, env: Env)
    requires Enabled(sh, req) && !req.SendAdd?
    ensures Serve(sh, req, env).0.log == sh.log
  {
  }

  lemma StepIsLogged(s: State, a: Action)
    requires ExactlyLogged(s.sh) && AddsOnly(a)
    ensures ExactlyLogged(Step(s, a).sh)
  {
    hide Next, RequestOf, UserStep, StoreStep;
    match a
    case Worker(w) =>
      if !w.AddSend? {
        ListGrows(s.sh.store, w);
        NoUpdateAppears(s.sh.store, w);
      }
    case Thread(t, env) =>
      var req := RequestOf(PcOf(s, t));
      if Enabled(s.sh, req) && req.SendAdd? {
        AcceptIsLogged(s.sh, req.cluster, req.owner);
      } else if Enabled(s.sh, req) {
        OnlySendsTouchTheStore(s.sh, req, env);
        OnlySendsAreLogged(s.sh, req, env);
      }
    case User(u) => assert UserStep(s.sh, u).log == s.sh.log by { UsersKeepTheLog(s.sh, u); } UsersAreApart(s.sh, u);
    case Spawn(_, _) =>
  }

  lemma UsersKeepTheLog(sh: Shared, u: UserAction)
    ensures UserStep(sh, u).log == sh.log
  {
  }

  /** In a run that only adds, list, hand and buffer are the seeds and the accepted creates in send order. */
  lemma {:induction false} PipelineIsExactlyTheLog(actions: seq<Action>)
    requires RunAddsOnly(actions)
    ensures ExactlyLogged(Run(INITIAL, actions).sh)
    decreases |actions|
  {
    hide Step, AddsOnly;
    if actions == [] {
      assert SEEDS + Clusters([]) == SEEDS == Pipeline(INITIAL_STORE);
    } else {
      var n := |actions| - 1;
      PipelineIsExactlyTheLog(actions[..n]);
      StepIsLogged(Run(INITIAL, actions[..n]), actions[n]);
    }
  }

  lemma StepPipelineGrows(s: State, a: Action)
    requires NoPendingUpdate(s.sh.store) && AddsOnly(a)
    ensures NoPendingUpdate(Step(s, a).sh.store)
    ensures Pipeline(s.sh.store) <= Pipeline(Step(s, a).sh.store)
  {
    hide Next, RequestOf, UserStep, StoreStep, Pipeline;
    match a
    case Worker(w) =>
      if !w.AddSend? {
        ListGrows(s.sh.store, w);
        NoUpdateAppears(s.sh.store, w);
      }
    case Thread(t, env) =>
      var req := RequestOf(PcOf(s, t));
      if Enabled(s.sh, req) && req.SendAdd? {
        ListGrows(s.sh.store, AddSend(req.cluster));
        NoUpdateAppears(s.sh.store, AddSend(req.cluster));
      } else if Enabled(s.sh, req) {
        OnlySendsTouchTheStore(s.sh, req, env);
      }
    case User(u) => UsersAreApart(s.sh, u);
    case Spawn(_, _) =>
  }

  /** In a run that only adds, what has been accepted keeps its place in line. */
  lemma {:induction false} RunPipelineGrows(s: State, actions: seq<Action>)
    requires NoPendingUpdate(s.sh.store) && RunAddsOnly(actions)
    ensures NoPendingUpdate(Run(s, actions).sh.store)
    ensures Pipeline(s.sh.store) <= Pipeline(Run(s, actions).sh.store)
    decreases |actions|
  {
    hide Step, AddsOnly, NoPendingUpdate, Pipeline;
    if actions == [] {
    } else {
      var n := |actions| - 1;
      RunPipelineGrows(s, actions[..n]);
      StepPipelineGrows(Run(s, actions[..n]), actions[n]);
    }
  }
}
