/** Runs in which creates do not race: every ID is one cluster's, and every cluster one instance's. */
module Ownership {
  import opened Types
  import opened ClusterStore
  import opened Api
  import opened Reconcilers
  import opened Operator
  import opened Invariants
  import opened Safety
  import opened Discovery
  import opened Duplicates

  /** All accepted creates are in the list, and no create is between its scan and its send. */
  predicate Drained(s: State) {
    && s.sh.store.addBuf == []
    && s.sh.store.addHand.None?
    && forall t :: t in s.threads ==> !Scanning(s.threads[t])
  }

  /** The step is a create's first look at the list. */
  predicate LooksFirst(s: State, a: Action) {
    a.Thread? && PcOf(s, a.t).InInstance? && PcOf(s, a.t).atInstance.CreateHeader?
  }

  /** Every create's first look finds the store drained. */
  ghost predicate CreatesTakeTurns(actions: seq<Action>) {
    forall n :: 0 <= n < |actions| ==>
      LooksFirst(Run(INITIAL, actions[..n]), actions[n]) ==> Drained(Run(INITIAL, actions[..n]))
  }

  /** At most one create is scanning, and it scans everything there is. */
  ghost predicate TakingTurns(s: State) {
    && Distinct(Ids(Pipeline(s.sh.store)))
    && (forall t :: t in s.threads && Scanning(s.threads[t]) ==>
          && s.sh.store.addBuf == []
          && s.sh.store.addHand.None?
          && s.threads[t].atInstance.h.len == |List(s.sh.store)|)
    && (forall t, u :: t in s.threads && u in s.threads && Scanning(s.threads[t]) && Scanning(s.threads[u]) ==> t == u)
  }

  lemma IdleStoreStays(s: Store, w: StoreAction)
    requires !Deletes(w) && !w.AddSend?
    requires s.addBuf == [] && s.addHand.None?
    ensures var after := StoreStep(s, w); after.addBuf == [] && after.addHand.None? && |List(after)| == |List(s)|
  {
  }

  lemma WorkerTurns(s: State, w: StoreAction)
    requires TakingTurns(s) && !Deletes(w) && !w.AddSend?
    ensures TakingTurns(s.(sh := s.sh.(store := StoreStep(s.sh.store, w))))
  {
    hide StoreStep, Scanning, Pipeline, List;
    IdsGrow(s.sh.store, w);
    if s.sh.store.addBuf == [] && s.sh.store.addHand.None? {
      IdleStoreStays(s.sh.store, w);
    }
  }

  lemma SendTurns(s: State, t: Tid, env: Env)
    requires Inv(s) && TakingTurns(s)
    requires RequestOf(PcOf(s, t)).SendAdd? && Enabled(s.sh, RequestOf(PcOf(s, t)))
    ensures TakingTurns(ThreadStep(s, t, env))
  {
    hide Next, SharedOK;
    var pc, after := PcOf(s, t), ThreadStep(s, t, env);
    var req := RequestOf(pc);
    assert t in s.threads && Scanning(pc);
    assert ThreadOK(s.sh, pc);
    SenderLacks(s.sh, pc, Serve(s.sh, req, env).1, env.now, req.cluster.id);
    SendAddsOne(s.sh, req, env);
    assert Pipeline(s.sh.store) == List(s.sh.store);
    var ids := Ids(List(s.sh.store));
    assert ids[..|ids|] == ids;
    assert req.cluster.id !in ids;
  }

  lemma ReadTurns(s: State, t: Tid, env: Env)
    requires Inv(s) && TakingTurns(s)
    requires LooksFirst(s, Thread(t, env)) ==> Drained(s)
    requires !RequestOf(PcOf(s, t)).SendAdd? && Enabled(s.sh, RequestOf(PcOf(s, t)))
    ensures TakingTurns(ThreadStep(s, t, env))
  {
    hide Next, Serve, Inv, Pipeline, List, RequestOf;
    var pc, after := PcOf(s, t), ThreadStep(s, t, env);
    var req := RequestOf(pc);
    var reply := Serve(s.sh, req, env).1;
    OnlySendsTouchTheStore(s.sh, req, env);
    if Scanning(after.threads[t]) {
      ScanningNext(pc, reply, env.now);
      if pc.atInstance.CreateHeader? {
        HeaderIsCurrent(s.sh, pc, env);
      }
    }
  }

  lemma HeaderIsCurrent(sh: Shared, pc: Pc, env: Env)
    requires pc.InInstance? && pc.atInstance.CreateHeader?
    ensures Serve(sh, RequestOf(pc), env).1 == Header(sh.store.hdr) && |List(sh.store)| == sh.store.hdr.len
  {
  }

  lemma StepTurns(s: State, a: Action)
    requires Inv(s) && TakingTurns(s) && NoDelete(a)
    requires LooksFirst(s, a) ==> Drained(s)
    ensures TakingTurns(Step(s, a))
  {
    hide Inv, Next, Serve, RequestOf, Enabled, StoreStep, UserStep, Pipeline, List, LooksFirst, Drained, Distinct;
    match a
    case Worker(w) =>
      if !w.AddSend? {
        WorkerTurns(s, w);
      }
    case User(u) => UsersAreApart(s.sh, u);
    case Spawn(_, _) =>
    case Thread(t, env) =>
      if Enabled(s.sh, RequestOf(PcOf(s, t))) {
        hide TakingTurns;
        if RequestOf(PcOf(s, t)).SendAdd? {
          SendTurns(s, t, env);
        } else {
          ReadTurns(s, t, env);
        }
      }
  }

  lemma {:induction false} TurnsAreTaken(actions: seq<Action>)
    requires NoDeletes(actions) && CreatesTakeTurns(actions)
    ensures TakingTurns(Run(INITIAL, actions))
    decreases |actions|
  {
    hide Inv, Step, NoDelete, TakingTurns, LooksFirst, Drained;
    if actions == [] {
      InitialTurns();
    } else {
      var n := |actions| - 1;
      forall m | 0 <= m < n
        ensures LooksFirst(Run(INITIAL, actions[..n][..m]), actions[..n][m]) ==>
              Drained(Run(INITIAL, actions[..n][..m]))
      {
        assert actions[..n][..m] == actions[..m];
      }
      TurnsAreTaken(actions[..n]);
      RunKeeps(actions[..n]);
      StepTurns(Run(INITIAL, actions[..n]), actions[n]);
    }
  }

  lemma InitialTurns()
    ensures TakingTurns(INITIAL)
  {
  }

  /** When creates take turns, no ID is ever accepted twice. */
  lemma IdsStayUnique(actions: seq<Action>)
    requires NoDeletes(actions) && CreatesTakeTurns(actions)
    ensures Distinct(Ids(Pipeline(Run(INITIAL, actions).sh.store)))
    ensures Distinct(Ids(List(Run(INITIAL, actions).sh.store)))
  {
    hide Run, NoDeletes, CreatesTakeTurns;
    TurnsAreTaken(actions);
    var s := Run(INITIAL, actions).sh.store;
    assert forall i :: 0 <= i < |List(s)| ==> Ids(List(s))[i] == Ids(Pipeline(s))[i];
  }
}
