/** Creates race: a scan and the send it allows are not atomic. How many copies of an ID can that make? */
module Duplicates {
  import opened Types
  import opened ClusterStore
  import opened Api
  import opened Reconcilers
  import opened Operator
  import opened Growth
  import opened Invariants
  import opened ThreadSteps
  import opened Safety
  import opened Discovery

  /** A goroutine inside CreateCluster, from before its first look at the list to its send. */
  predicate InCreate(pc: Pc) {
    pc.InInstance? && (pc.atInstance.CreateHeader? || pc.atInstance.CreateScan?)
  }

  /** A goroutine that wants an ID its snapshot of the list does not hold. */
  predicate Lacks(s: Store, pc: Pc, id: string) {
    && pc.InInstance? && pc.atInstance.CreateScan?
    && pc.atInstance.want.id == id
    && pc.atInstance.h.len <= |List(s)|
    && id !in Ids(List(s))[..pc.atInstance.h.len]
  }

  function Creators(s: State): set<Tid> {
    set t | t in s.threads && InCreate(s.threads[t])
  }

  function Lackers(s: State, id: string): set<Tid> {
    set t | t in s.threads && Lacks(s.sh.store, s.threads[t], id)
  }

  /** Copies of an ID in the list, the worker's hand, the buffer, and about to be sent. */
  function Copies(s: State, id: string): nat {
    multiset(Ids(Pipeline(s.sh.store)))[id] + |Lackers(s, id)|
  }

  lemma SubsetSize<T>(a: set<T>, b: set<T>)
    requires a <= b
    ensures |a| <= |b|
  {
    assert b == a + (b - a);
  }

  /** Sets that differ in one element at most. */
  lemma SizesByOne<T>(a: set<T>, b: set<T>, t: T)
    requires a - {t} == b - {t}
    ensures (t in a ==> t in b) ==> |a| <= |b|
    ensures t !in a && t in b ==> |a| + 1 == |b|
  {
    assert t in a ==> a == (a - {t}) + {t};
    assert t !in a ==> a == a - {t};
    assert t in b ==> b == (b - {t}) + {t};
    assert t !in b ==> b == b - {t};
  }

  lemma LackersAreCreators(s: State, id: string)
    ensures |Lackers(s, id)| <= |Creators(s)|
  {
    SubsetSize(Lackers(s, id), Creators(s));
  }

  /** An ID not in the list has only the hand and the buffer to be in. */
  lemma UnlistedIsFew(s: Store, id: string)
    requires id !in Ids(List(s))
    ensures multiset(Ids(Pipeline(s)))[id] <= 6
  {
    var rest := InHand(s.addHand) + s.addBuf;
    assert Ids(Pipeline(s)) == Ids(List(s)) + Ids(rest) by {
      assert Pipeline(s) == List(s) + rest;
    }
    assert multiset(Ids(List(s)))[id] == 0;
    assert multiset(Ids(rest))[id] <= |Ids(rest)|;
  }

  /** Old snapshots keep lacking what they lacked. */
  lemma LacksStable(a: Store, b: Store, pc: Pc, id: string)
    requires Ids(List(a)) <= Ids(List(b))
    requires pc.InInstance? && pc.atInstance.CreateScan? ==> pc.atInstance.h.len <= |List(a)|
    ensures Lacks(a, pc, id) <==> Lacks(b, pc, id)
  {
    if pc.InInstance? && pc.atInstance.CreateScan? {
      var n := pc.atInstance.h.len;
      assert n <= |Ids(List(a))| <= |Ids(List(b))|;
      assert Ids(List(a))[..n] == Ids(List(b))[..n];
    }
  }

  lemma LackersStable(s: State, sh: Shared, id: string)
    requires Inv(s) && Ids(List(s.sh.store)) <= Ids(List(sh.store))
    ensures Lackers(State(sh, s.threads), id) == Lackers(s, id)
  {
    hide Lacks;
    forall t | t in s.threads
      ensures Lacks(s.sh.store, s.threads[t], id) <==> Lacks(sh.store, s.threads[t], id)
    {
      assert ThreadOK(s.sh, s.threads[t]);
      LacksStable(s.sh.store, sh.store, s.threads[t], id);
    }
  }

  predicate Scanning(pc: Pc) {
    pc.InInstance? && pc.atInstance.CreateScan?
  }

  /** A scan begins with a header and goes on with the one it has. */
  lemma ScanningNext(pc: Pc, reply: Reply, now: nat)
    requires Scanning(Next(pc, reply, now))
    ensures pc.InInstance?
    ensures var next := Next(pc, reply, now);
            || (pc.atInstance.CreateHeader? && reply == Header(next.atInstance.h))
            || (pc.atInstance.CreateScan? && pc.atInstance.i < pc.atInstance.h.len
                && pc.atInstance.h == next.atInstance.h && pc.atInstance.want == next.atInstance.want)
  {
    hide WithInstanceCondition, WithDetails, HasSuffix, InventoryNext, ConnectionNext;
  }

  /** Only a look at a list without the ID makes a goroutine lack it. */
  lemma LacksNext(sh: Shared, pc: Pc, reply: Reply, now: nat, id: string)
    requires Fits(sh, RequestOf(pc), reply)
    requires Lacks(sh.store, Next(pc, reply, now), id)
    ensures Lacks(sh.store, pc, id) || id !in Ids(List(sh.store))
  {
    hide Next;
    ScanningNext(pc, reply, now);
    assert Ids(List(sh.store))[..|List(sh.store)|] == Ids(List(sh.store));
  }

  /** A goroutine sends what it lacks, and lacks it no longer. */
  lemma SenderLacks(sh: Shared, pc: Pc, reply: Reply, now: nat, id: string)
    requires ThreadOK(sh, pc) && RequestOf(pc).SendAdd?
    ensures !Scanning(Next(pc, reply, now))
    ensures RequestOf(pc).cluster.id == id ==> Lacks(sh.store, pc, id)
  {
    hide Next, Made;
    if Scanning(Next(pc, reply, now)) {
      ScanningNext(pc, reply, now);
    }
    var n := pc.atInstance.h.len;
    assert forall j :: 0 <= j < n ==> Ids(List(sh.store))[..n][j] == List(sh.store)[j].id;
  }

  lemma OthersLack(s: State, t: Tid, sh: Shared, pc: Pc, id: string)
    requires Inv(s) && Ids(List(s.sh.store)) <= Ids(List(sh.store))
    ensures var after := State(sh, s.threads[t := pc]);
            && Lackers(after, id) - {t} == Lackers(s, id) - {t}
            && (t in Lackers(after, id) <==> Lacks(sh.store, pc, id))
            && (t in Lackers(s, id) <==> Lacks(s.sh.store, PcOf(s, t), id))
  {
    hide Lacks, Inv;
    LackersStable(s, sh, id);
    assert !Lacks(s.sh.store, Idle, id) by { IdleLacksNothing(s.sh.store, id); }
    assert forall u :: u in s.threads ==> (u in Lackers(s, id) <==> u in Lackers(State(sh, s.threads), id));
  }

  lemma IdleLacksNothing(s: Store, id: string)
    ensures !Lacks(s, Idle, id)
  {
  }

  /** One step makes no more copies than there were, or than creators and pipeline can hold. */
  lemma CopiesStep(s: State, a: Action, id: string)
    requires Inv(s) && NoDelete(a)
    ensures Copies(Step(s, a), id) <= Copies(s, id) || Copies(Step(s, a), id) <= |Creators(Step(s, a))| + 6
  {
    hide Inv, Lacks, Lackers, Creators, StoreStep, UserStep, Serve, Next, RequestOf, Enabled, Deletes, Pipeline, List;
    var after := Step(s, a);
    match a
    case Worker(w) =>
      if !w.AddSend? {
        IdsGrow(s.sh.store, w);
        LackersStable(s, after.sh, id);
      }
    case User(u) =>
      UsersAreApart(s.sh, u);
      LackersStable(s, after.sh, id);
    case Spawn(t, start) =>
      if Resting(PcOf(s, t)) && Starting(start) {
        OthersLack(s, t, s.sh, start, id);
        StartsLackNothing(s.sh.store, start, id);
        SizesByOne(Lackers(after, id), Lackers(s, id), t);
      }
    case Thread(t, env) =>
      if Enabled(s.sh, RequestOf(PcOf(s, t))) {
        CallCopies(s, t, env, id);
      }
  }

  lemma StartsLackNothing(s: Store, pc: Pc, id: string)
    requires Starting(pc)
    ensures !Lacks(s, pc, id)
  {
  }

  lemma CallCopies(s: State, t: Tid, env: Env, id: string)
    requires Inv(s) && Enabled(s.sh, RequestOf(PcOf(s, t)))
    ensures var after := ThreadStep(s, t, env);
            Copies(after, id) <= Copies(s, id) || Copies(after, id) <= |Creators(after)| + 6
  {
    hide Lacks, Lackers, Creators, Serve, Next, RequestOf, Pipeline, List, SharedOK, ThreadOK;
    var pc, after := PcOf(s, t), ThreadStep(s, t, env);
    var req := RequestOf(pc);
    assert ThreadOK(s.sh, pc) by { IdleOK(s.sh); }
    ServeGrows(s.sh, req, env);
    assert Ids(List(s.sh.store)) <= Ids(List(after.sh.store));
    OthersLack(s, t, after.sh, after.threads[t], id);
    SizesByOne(Lackers(after, id), Lackers(s, id), t);
    var reply := Serve(s.sh, req, env).1;
    if req.SendAdd? {
      SendAddsOne(s.sh, req, env);
      SenderLacks(s.sh, pc, reply, env.now, id);
      assert !Lacks(after.sh.store, after.threads[t], id) by { OnlyScannersLack(after.sh.store, after.threads[t], id); }
    } else {
      OnlySendsTouchTheStore(s.sh, req, env);
      if Lacks(after.sh.store, after.threads[t], id) {
        ServeFits(s.sh, req, env);
        LacksNext(after.sh, pc, reply, env.now, id);
        if !Lacks(s.sh.store, pc, id) {
          UnlistedIsFew(after.sh.store, id);
          LackersAreCreators(after, id);
        }
      }
    }
  }

  lemma OnlyScannersLack(s: Store, pc: Pc, id: string)
    ensures Lacks(s, pc, id) ==> Scanning(pc)
  {
  }

  lemma SendAddsOne(sh: Shared, req: Request, env: Env)
    requires req.SendAdd? && Enabled(sh, req)
    ensures Ids(Pipeline(Serve(sh, req, env).0.store)) == Ids(Pipeline(sh.store)) + [req.cluster.id]
  {
    IdsGrow(sh.store, AddSend(req.cluster));
  }

  /** At no point of the run are more than limit creates under way. */
  ghost predicate AtMostCreating(actions: seq<Action>, limit: nat) {
    forall n :: 0 <= n <= |actions| ==> |Creators(Run(INITIAL, actions[..n]))| <= limit
  }

  /**
   With at most limit creates under way at a time, an ID is never in more than limit + 6 copies:
   five in the buffer, one in the worker's hand, and one for each create that scanned too early.
   */
  lemma {:induction false} CopiesAreBounded(actions: seq<Action>, limit: nat, id: string)
    requires NoDeletes(actions) && AtMostCreating(actions, limit)
    ensures Copies(Run(INITIAL, actions), id) <= limit + 6
    decreases |actions|
  {
    hide Creators, Step, Inv, NoDelete, Copies;
    if actions == [] {
      InitialCopies(id);
    } else {
      var n := |actions| - 1;
      assert forall m :: 0 <= m <= n ==> actions[..n][..m] == actions[..m];
      CopiesAreBounded(actions[..n], limit, id);
      RunKeeps(actions[..n]);
      CopiesStep(Run(INITIAL, actions[..n]), actions[n], id);
      assert actions[..|actions|] == actions;
    }
  }

  lemma InitialCopies(id: string)
    ensures Copies(INITIAL, id) <= 6
  {
    assert Lackers(INITIAL, id) == {};
    assert |Ids(Pipeline(INITIAL_STORE))| == 3;
    assert multiset(Ids(Pipeline(INITIAL_STORE)))[id] <= |multiset(Ids(Pipeline(INITIAL_STORE)))|;
  }
}
