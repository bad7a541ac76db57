/** Runs that exist: how one goroutine gets through a reconcile when nothing else moves. */
module Walks {
  import opened Types
  import opened ClusterStore
  import opened StoreLaws
  import opened Api
  import opened Reconcilers
  import opened Operator
  import opened Quiescence

  // ------------------------------------------------------------------------ runs

  /** How many reconciles a run starts. */
  function Starts(actions: seq<Action>): nat {
    if actions == [] then 0
    else Starts(actions[..|actions| - 1]) + if actions[|actions| - 1].Spawn? then 1 else 0
  }

  /** Some calm run leads from a to b with no more than so many new reconciles. */
  ghost predicate Leads(a: State, b: State, k: Key, starts: nat) {
    exists actions :: CalmFrom(a, actions, k) && Run(a, actions) == b && Starts(actions) <= starts
          && AllHandsOff(actions)
  }

  /** No user writes or deletes a Secret or a ConfigMap. */
  predicate HandsOff(a: Action) {
    a.User? ==>
      !a.user.ApplySecret? && !a.user.DeleteSecret? && !a.user.ApplyConfigMap? && !a.user.DeleteConfigMap?
  }

  predicate AllHandsOff(actions: seq<Action>) {
    forall i :: 0 <= i < |actions| ==> HandsOff(actions[i])
  }

  lemma RunOne(s: State, actions: seq<Action>, a: Action)
    ensures Run(s, actions + [a]) == Step(Run(s, actions), a)
    ensures Starts(actions + [a]) == Starts(actions) + if a.Spawn? then 1 else 0
  {
    hide Step;
    assert (actions + [a])[..|actions|] == actions;
  }

  lemma {:induction false} CalmAppends(s: State, first: seq<Action>, second: seq<Action>, k: Key)
    ensures CalmFrom(s, first + second, k) <==> CalmFrom(s, first, k) && CalmFrom(Run(s, first), second, k)
    ensures Starts(first + second) == Starts(first) + Starts(second)
    decreases |second|
  {
    hide Calm, Run;
    var both := first + second;
    if second == [] {
      assert both == first;
      assert CalmFrom(Run(s, first), [], k);
    } else {
      var n := |second| - 1;
      var init := second[..n];
      CalmAppends(s, first, init, k);
      assert both[..|both| - 1] == first + init && both[|both| - 1] == second[n];
      CalmByStep(s, both, k);
      CalmByStep(Run(s, first), second, k);
      RunAppends(s, first, init);
    }
  }

  lemma CalmByStep(s: State, actions: seq<Action>, k: Key)
    requires actions != []
    ensures var n := |actions| - 1;
            CalmFrom(s, actions, k) <==> CalmFrom(s, actions[..n], k) && Calm(Run(s, actions[..n]), actions[n], k)
  {
    hide Calm, Run;
    var n := |actions| - 1;
    assert forall m :: 0 <= m < n ==> actions[..n][..m] == actions[..m] && actions[..n][m] == actions[m];
    if CalmFrom(s, actions[..n], k) && Calm(Run(s, actions[..n]), actions[n], k) {
      forall m | 0 <= m < |actions|
        ensures Calm(Run(s, actions[..m]), actions[m], k)
      {
        assert m < n ==> Calm(Run(s, actions[..n][..m]), actions[..n][m], k);
      }
    }
    if CalmFrom(s, actions, k) {
      forall m | 0 <= m < n
        ensures Calm(Run(s, actions[..n][..m]), actions[..n][m], k)
      {
        assert Calm(Run(s, actions[..m]), actions[m], k);
      }
    }
  }

  lemma LeadsNowhere(s: State, k: Key)
    ensures Leads(s, s, k, 0)
  {
    hide Calm;
    assert CalmFrom(s, [], k) && Run(s, []) == s && Starts([]) == 0 && AllHandsOff([]);
  }

  lemma LeadsByStep(s: State, a: Action, k: Key)
    requires Calm(s, a, k) && HandsOff(a)
    ensures Leads(s, Step(s, a), k, if a.Spawn? then 1 else 0)
  {
    hide Calm, Step;
    RunOne(s, [], a);
    assert [] + [a] == [a];
    assert [a][..0] == [];
    CalmByStep(s, [a], k);
    assert CalmFrom(s, [a], k) && Run(s, [a]) == Step(s, a) && Starts([a]) == (if a.Spawn? then 1 else 0)
          && AllHandsOff([a]);
  }

  lemma LeadsOn(a: State, b: State, c: State, k: Key, m: nat, n: nat)
    requires Leads(a, b, k, m) && Leads(b, c, k, n)
    ensures Leads(a, c, k, m + n)
  {
    hide CalmFrom, Run, Starts;
    var first :| CalmFrom(a, first, k) && Run(a, first) == b && Starts(first) <= m && AllHandsOff(first);
    var second :| CalmFrom(b, second, k) && Run(b, second) == c && Starts(second) <= n && AllHandsOff(second);
    CalmAppends(a, first, second, k);
    RunAppends(a, first, second);
    assert CalmFrom(a, first + second, k) && Run(a, first + second) == c && Starts(first + second) <= m + n
          && AllHandsOff(first + second);
  }

  lemma LeadsOnByStep(a: State, b: State, act: Action, c: State, k: Key, m: nat)
    requires Leads(a, b, k, m) && Calm(b, act, k) && HandsOff(act) && !act.Spawn? && Step(b, act) == c
    ensures Leads(a, c, k, m)
  {
    hide Leads, Calm, Step;
    LeadsByStep(b, act, k);
    LeadsOn(a, b, c, k, m, 0);
  }

  /** Some run without deletes leads from a to b, in which no user touches a Secret or a ConfigMap. */
  ghost predicate Follows(a: State, b: State) {
    exists actions :: NoDeletes(actions) && AllHandsOff(actions) && Run(a, actions) == b
  }

  lemma LeadsFollows(a: State, b: State, k: Key, n: nat)
    requires Leads(a, b, k, n)
    ensures Follows(a, b)
  {
    hide CalmFrom, Run, Starts, NoDeletes;
    var actions :| CalmFrom(a, actions, k) && Run(a, actions) == b && Starts(actions) <= n && AllHandsOff(actions);
    CalmDeletesNothing(a, actions, k);
  }

  lemma FollowsByStep(a: State, b: State, act: Action)
    requires Follows(a, b) && NoDelete(act) && HandsOff(act)
    ensures Follows(a, Step(b, act))
  {
    hide Run, NoDelete, Step;
    var actions :| NoDeletes(actions) && AllHandsOff(actions) && Run(a, actions) == b;
    RunOne(a, actions, act);
    assert NoDeletes(actions + [act]) && AllHandsOff(actions + [act]);
  }

  lemma FollowsSelf(a: State)
    ensures Follows(a, a)
  {
    assert NoDeletes([]) && AllHandsOff([]) && Run(a, []) == a;
  }

  lemma FollowsOn(a: State, b: State, c: State)
    requires Follows(a, b) && Follows(b, c)
    ensures Follows(a, c)
  {
    hide Run, NoDelete;
    var first :| NoDeletes(first) && AllHandsOff(first) && Run(a, first) == b;
    var second :| NoDeletes(second) && AllHandsOff(second) && Run(b, second) == c;
    RunAppends(a, first, second);
    assert NoDeletes(first + second) && AllHandsOff(first + second);
  }

  // ----------------------------------------------------------------------- steps

  function With(s: State, t: Tid, pc: Pc): State {
    s.(threads := s.threads[t := pc])
  }

  function Fine(version: nat): Env {
    Env(version, NoFault, "", 0)
  }

  lemma WithTwice(s: State, t: Tid, p: Pc, q: Pc)
    ensures With(With(s, t, p), t, q) == With(s, t, q) && PcOf(With(s, t, p), t) == p
    ensures forall u :: u != t ==> PcOf(With(s, t, p), u) == PcOf(s, u)
  {
  }

  /** A call that succeeds is calm for every instance, if an inventory it looks for is there. */
  lemma FineIsCalm(s: State, t: Tid, version: nat, k: Key)
    requires PcOf(s, t).InInstance? && PcOf(s, t).atInstance.FindInventory? ==>
               LiveAt(Hist(s.sh.inventories, PcOf(s, t).instance.spec.inventoryRef), version)
    ensures Calm(s, Thread(t, Fine(version)), k)
  {
  }

  lemma Begin(s: State, t: Tid, k: Key, v: nat)
    requires Resting(PcOf(s, t)) && LiveAt(Hist(s.sh.instances, k), v)
    ensures Step(Step(s, Spawn(t, InstanceStart(k))), Thread(t, Fine(v)))
         == With(s, t, InInstance(k, v, WithPhase(Hist(s.sh.instances, k)[v].obj, Unknown), FindInventory))
  {
    hide InstanceNext;
  }

  lemma Find(s: State, t: Tid, k: Key, v: nat, o: ProviderInstance, iv: nat)
    requires LiveAt(Hist(s.sh.inventories, o.spec.inventoryRef), iv)
    requires PcOf(s, t) == InInstance(k, v, o, FindInventory)
    ensures Step(s, Thread(t, Fine(iv))) == With(s, t, InInstance(k, v, WithPhase(o, Pending), OpenInstanceCloud))
  {
    hide FailInstance, HaveCluster, WithDetails, InventoryNext, ConnectionNext, BeginCreate, StoreStep;
  }

  lemma Open(s: State, t: Tid, k: Key, v: nat, o: ProviderInstance)
    requires PcOf(s, t) == InInstance(k, v, o, OpenInstanceCloud)
    ensures Step(s, Thread(t, Fine(0)))
         == With(s, t, if o.status.instanceID == "" then BeginCreate(k, v, WithPhase(o, Creating), 0)
                       else InInstance(k, v, o, GetHeader))
  {
    hide BeginCreate, FailInstance, HaveCluster, WithDetails, InventoryNext, ConnectionNext, StoreStep;
  }

  lemma LookToCreate(s: State, t: Tid, k: Key, v: nat, o: ProviderInstance, want: Cluster)
    requires PcOf(s, t) == InInstance(k, v, o, CreateHeader(want))
    ensures Step(s, Thread(t, Fine(0))) == With(s, t, InInstance(k, v, o, CreateScan(want, s.sh.store.hdr, 0)))
  {
    hide WithInstanceCondition, WithDetails, HasSuffix;
  }

  lemma LookToGet(s: State, t: Tid, k: Key, v: nat, o: ProviderInstance)
    requires PcOf(s, t) == InInstance(k, v, o, GetHeader)
    ensures Step(s, Thread(t, Fine(0))) == With(s, t, InInstance(k, v, o, GetScan(s.sh.store.hdr, 0)))
  {
    hide WithInstanceCondition, WithDetails, HasSuffix;
  }

  lemma CreateScanStep(s: State, t: Tid, k: Key, v: nat, o: ProviderInstance, want: Cluster, h: Slice, i: nat)
    requires i < h.len && SeesIds(s.sh.store, h)
    requires PcOf(s, t) == InInstance(k, v, o, CreateScan(want, h, i))
    ensures Step(s, Thread(t, Fine(0)))
         == With(s, t, if List(s.sh.store)[i].id == want.id
                       then FailInstance(k, v, o, BACKEND_ERROR, ALREADY_EXISTS, 0)
                       else InInstance(k, v, o, CreateScan(want, h, i + 1)))
  {
    hide FailInstance, HaveCluster, WithDetails, InventoryNext, ConnectionNext;
  }

  /** The scan reads the array its header points to, whatever the list is by now. */
  lemma GetScanStep(s: State, t: Tid, k: Key, v: nat, o: ProviderInstance, h: Slice, i: nat)
    requires i < h.len && h.arr < |s.sh.store.mem| && i < |s.sh.store.mem[h.arr]|
    requires s.sh.store.mem[h.arr][i].id != o.status.instanceID
    requires PcOf(s, t) == InInstance(k, v, o, GetScan(h, i))
    ensures Step(s, Thread(t, Fine(0))) == With(s, t, InInstance(k, v, o, GetScan(h, i + 1)))
  {
    hide FailInstance, HaveCluster, WithDetails, InventoryNext, ConnectionNext, List;
  }

  lemma GetHit(s: State, t: Tid, k: Key, v: nat, o: ProviderInstance, i: nat)
    requires i < |List(s.sh.store)| && List(s.sh.store)[i].id == o.status.instanceID
    requires PcOf(s, t) == InInstance(k, v, o, GetScan(s.sh.store.hdr, i))
    ensures Step(s, Thread(t, Fine(0))) == With(s, t, HaveCluster(k, v, o, List(s.sh.store)[i], 0))
  {
    hide FailInstance, HaveCluster, WithDetails, InventoryNext, ConnectionNext;
  }

  lemma GetMiss(s: State, t: Tid, k: Key, v: nat, o: ProviderInstance, h: Slice)
    requires PcOf(s, t) == InInstance(k, v, o, GetScan(h, h.len))
    ensures Step(s, Thread(t, Fine(0))) == With(s, t, FailInstance(k, v, o, BACKEND_ERROR, NOT_FOUND, 0))
  {
    hide FailInstance, HaveCluster, WithDetails, InventoryNext, ConnectionNext;
  }

  lemma Send(s: State, t: Tid, k: Key, v: nat, o: ProviderInstance, want: Cluster, h: Slice)
    requires PcOf(s, t) == InInstance(k, v, o, CreateScan(want, h, h.len)) && |s.sh.store.addBuf| < CAPACITY
    ensures Step(s, Thread(t, Fine(0)))
         == State(Accept(s.sh, want, k), s.threads[t := HaveCluster(k, v, o, want, 0)])
  {
    hide FailInstance, HaveCluster, WithDetails, InventoryNext, ConnectionNext, Accept;
  }

  /** A status write of an instance reconcile, whatever comes of it. */
  lemma Write(s: State, t: Tid, k: Key, v: nat, o: ProviderInstance, at: InstanceAt, env: Env)
    requires PcOf(s, t) == InInstance(k, v, o, at) && WritesStatus(at)
    ensures var (after, reply) := UpdateInstance(s.sh, k, v, o.status, env);
            Step(s, Thread(t, env)) == State(after, s.threads[t := InstanceNext(k, v, o, at, reply, env.now)])
  {
    hide UpdateInstance, InstanceNext, InventoryNext, ConnectionNext;
  }

  lemma PhaseAside(o: ProviderInstance, p: Phase, q: Phase)
    ensures WithPhase(WithPhase(o, p), q) == WithPhase(o, q)
    ensures Wanted(WithPhase(o, p)) == Wanted(o)
    ensures forall name :: Parameter(WithPhase(o, p), name) == Parameter(o, name)
  {
  }

  lemma HeaderSees(s: Store)
    ensures SeesIds(s, s.hdr) && s.hdr.len == |List(s)|
  {
  }

  lemma WantedHasID(o: ProviderInstance)
    ensures Wanted(o).id != ""
  {
  }

  // ----------------------------------------------------------------------- walks

  /** Up to the cloud service. */
  lemma Approach(s: State, t: Tid, k: Key, v: nat, iv: nat, c: Key)
    requires Resting(PcOf(s, t)) && LiveAt(Hist(s.sh.instances, k), v)
    requires LiveAt(Hist(s.sh.inventories, Hist(s.sh.instances, k)[v].obj.spec.inventoryRef), iv)
    ensures Leads(s, With(s, t,
          InInstance(k, v, WithPhase(Hist(s.sh.instances, k)[v].obj, Pending), OpenInstanceCloud)), c, 1)
  {
    hide Leads, Step;
    var o := Hist(s.sh.instances, k)[v].obj;
    var spawned := Step(s, Spawn(t, InstanceStart(k)));
    var found := With(s, t, InInstance(k, v, WithPhase(o, Unknown), FindInventory));
    var pending := With(s, t, InInstance(k, v, WithPhase(o, Pending), OpenInstanceCloud));
    LeadsByStep(s, Spawn(t, InstanceStart(k)), c);
    Spawned(s, t, InstanceStart(k));
    Begin(s, t, k, v);
    FineIsCalm(spawned, t, v, c);
    LeadsOnByStep(s, spawned, Thread(t, Fine(v)), found, c, 1);
    WithTwice(s, t, found.threads[t], pending.threads[t]);
    FineIsCalm(found, t, iv, c);
    PhaseAside(o, Unknown, Pending);
    Find(found, t, k, v, WithPhase(o, Unknown), iv);
    LeadsOnByStep(s, found, Thread(t, Fine(iv)), pending, c, 1);
  }

  lemma Spawned(s: State, t: Tid, start: Pc)
    requires Resting(PcOf(s, t)) && Starting(start)
    ensures Step(s, Spawn(t, start)) == With(s, t, start) && PcOf(With(s, t, start), t) == start
  {
    hide ThreadStep;
  }

  lemma StartsLead(s: State, t: Tid, start: Pc, c: Key)
    requires Resting(PcOf(s, t)) && Starting(start)
    ensures Leads(s, With(s, t, start), c, 1)
  {
    hide Leads, Step;
    Spawned(s, t, start);
    LeadsByStep(s, Spawn(t, start), c);
  }

  /** One call of goroutine t that changes nothing but its own place. */
  lemma Moves(s: State, t: Tid, from: Pc, to: Pc, version: nat, c: Key)
    requires !(from.InInstance? && from.atInstance.FindInventory?)
    requires Step(With(s, t, from), Thread(t, Fine(version))) == With(With(s, t, from), t, to)
    ensures Leads(With(s, t, from), With(s, t, to), c, 0)
  {
    hide Leads, Step;
    WithTwice(s, t, from, to);
    FineIsCalm(With(s, t, from), t, version, c);
    LeadsByStep(With(s, t, from), Thread(t, Fine(version)), c);
  }

  lemma {:induction false} CreateScans(
    s: State, t: Tid, k: Key, v: nat, o: ProviderInstance, want: Cluster, h: Slice, i: nat, n: nat, c: Key)
    requires i <= n <= h.len && SeesIds(s.sh.store, h)
    requires forall j :: i <= j < n ==> List(s.sh.store)[j].id != want.id
    ensures Leads(With(s, t, InInstance(k, v, o, CreateScan(want, h, i))),
                  With(s, t, InInstance(k, v, o, CreateScan(want, h, n))), c, 0)
    decreases n
  {
    hide Leads, Step, SeesIds;
    var first := InInstance(k, v, o, CreateScan(want, h, i));
    if n == i {
      LeadsNowhere(With(s, t, first), c);
    } else {
      var before := InInstance(k, v, o, CreateScan(want, h, n - 1));
      var after := InInstance(k, v, o, CreateScan(want, h, n));
      CreateScans(s, t, k, v, o, want, h, i, n - 1, c);
      WithTwice(s, t, before, after);
      CreateScanStep(With(s, t, before), t, k, v, o, want, h, n - 1);
      Moves(s, t, before, after, 0, c);
      LeadsOn(With(s, t, first), With(s, t, before), With(s, t, after), c, 0, 0);
    }
  }

  lemma {:induction false} GetReads(
    s: State, t: Tid, k: Key, v: nat, o: ProviderInstance, h: Slice, i: nat, n: nat, c: Key)
    requires i <= n <= h.len && h.arr < |s.sh.store.mem| && n <= |s.sh.store.mem[h.arr]|
    requires forall j :: i <= j < n ==> s.sh.store.mem[h.arr][j].id != o.status.instanceID
    ensures Leads(With(s, t, InInstance(k, v, o, GetScan(h, i))), With(s, t, InInstance(k, v, o, GetScan(h, n))), c, 0)
    decreases n
  {
    hide Leads, Step;
    var first := InInstance(k, v, o, GetScan(h, i));
    if n == i {
      LeadsNowhere(With(s, t, first), c);
    } else {
      var before := InInstance(k, v, o, GetScan(h, n - 1));
      var after := InInstance(k, v, o, GetScan(h, n));
      GetReads(s, t, k, v, o, h, i, n - 1, c);
      WithTwice(s, t, before, after);
      GetScanStep(With(s, t, before), t, k, v, o, h, n - 1);
      Moves(s, t, before, after, 0, c);
      LeadsOn(With(s, t, first), With(s, t, before), With(s, t, after), c, 0, 0);
    }
  }

  lemma GetScans(s: State, t: Tid, k: Key, v: nat, o: ProviderInstance, h: Slice, i: nat, n: nat, c: Key)
    requires i <= n <= h.len && SeesIds(s.sh.store, h)
    requires forall j :: i <= j < n ==> List(s.sh.store)[j].id != o.status.instanceID
    ensures Leads(With(s, t, InInstance(k, v, o, GetScan(h, i))), With(s, t, InInstance(k, v, o, GetScan(h, n))), c, 0)
  {
    hide Leads;
    assert forall j :: i <= j < n ==> s.sh.store.mem[h.arr][j].id == List(s.sh.store)[j].id;
    GetReads(s, t, k, v, o, h, i, n, c);
  }

  // ---------------------------------------------------------------------- creates

  /** The instance's stored version and its inventory let a reconcile get as far as a create. */
  predicate MayCreate(sh: Shared, k: Key, v: nat, iv: nat) {
    && LiveAt(Hist(sh.instances, k), v)
    && var o := Hist(sh.instances, k)[v].obj;
       && o.status.instanceID == ""
       && Parameter(o, NAME_PARAMETER) != ""
       && !HasSuffix(Parameter(o, NAME_PARAMETER), INVALID_SUFFIX)
       && LiveAt(Hist(sh.inventories, o.spec.inventoryRef), iv)
  }

  /** The point just before a create sends, having scanned all of the current list. */
  function AboutToSend(sh: Shared, k: Key, v: nat): Pc
    requires LiveAt(Hist(sh.instances, k), v)
  {
    var o := Hist(sh.instances, k)[v].obj;
    InInstance(k, v, WithPhase(o, Creating), CreateScan(Wanted(o), sh.store.hdr, sh.store.hdr.len))
  }

  /** A create scans up to the first cluster with the ID it wants, or to the end. */
  lemma WalksThroughScan(s: State, t: Tid, k: Key, v: nat, iv: nat, c: Key)
    requires Resting(PcOf(s, t)) && MayCreate(s.sh, k, v, iv)
    ensures var o, h := Hist(s.sh.instances, k)[v].obj, s.sh.store.hdr;
            var n := FirstIndex(List(s.sh.store), Wanted(o).id);
            Leads(s, With(s, t, InInstance(k, v, WithPhase(o, Creating), CreateScan(Wanted(o), h, n))), c, 1)
  {
    hide Leads, Step, Wanted, HasSuffix, Parameter, List;
    var o, h := Hist(s.sh.instances, k)[v].obj, s.sh.store.hdr;
    var n := FirstIndex(List(s.sh.store), Wanted(o).id);
    var opening := InInstance(k, v, WithPhase(o, Pending), OpenInstanceCloud);
    var looking := InInstance(k, v, WithPhase(o, Creating), CreateHeader(Wanted(o)));
    var scanning := InInstance(k, v, WithPhase(o, Creating), CreateScan(Wanted(o), h, 0));
    var scanned := InInstance(k, v, WithPhase(o, Creating), CreateScan(Wanted(o), h, n));
    Approach(s, t, k, v, iv, c);
    PhaseAside(o, Pending, Creating);
    PhaseAside(o, Creating, Creating);
    WithTwice(s, t, opening, looking);
    Open(With(s, t, opening), t, k, v, WithPhase(o, Pending));
    Moves(s, t, opening, looking, 0, c);
    WithTwice(s, t, looking, scanning);
    LookToCreate(With(s, t, looking), t, k, v, WithPhase(o, Creating), Wanted(o));
    Moves(s, t, looking, scanning, 0, c);
    HeaderSees(s.sh.store);
    CreateScans(s, t, k, v, WithPhase(o, Creating), Wanted(o), h, 0, n, c);
    LeadsOn(s, With(s, t, opening), With(s, t, looking), c, 1, 0);
    LeadsOn(s, With(s, t, looking), With(s, t, scanning), c, 1, 0);
    LeadsOn(s, With(s, t, scanning), With(s, t, scanned), c, 1, 0);
  }

  lemma WalksToSend(s: State, t: Tid, k: Key, v: nat, iv: nat, c: Key)
    requires Resting(PcOf(s, t)) && MayCreate(s.sh, k, v, iv)
    requires Wanted(Hist(s.sh.instances, k)[v].obj).id !in Ids(List(s.sh.store))
    ensures Leads(s, With(s, t, AboutToSend(s.sh, k, v)), c, 1)
  {
    hide Leads, Wanted;
    var o := Hist(s.sh.instances, k)[v].obj;
    UnlistedIndex(List(s.sh.store), Wanted(o).id);
    WalksThroughScan(s, t, k, v, iv, c);
  }

  // ---------------------------------------------------------------------- workers

  /** The add worker empties its hand and takes one from the buffer, so that a send finds room. */
  lemma MakeRoom(s: State, c: Key) returns (after: State)
    ensures Leads(s, after, c, 0)
    ensures after == s.(sh := s.sh.(store := after.sh.store))
    ensures |after.sh.store.addBuf| < CAPACITY && Pipeline(after.sh.store) == Pipeline(s.sh.store)
    ensures s.sh.store.updateHand.None? ==> after.sh.store.updateHand.None?
    ensures after.sh.store.updateBuf == s.sh.store.updateBuf
    ensures after.sh.store.deleteBuf == s.sh.store.deleteBuf && after.sh.store.deleteHand == s.sh.store.deleteHand
    ensures |s.sh.store.addBuf| < CAPACITY ==> after == s
  {
    hide Leads, Calm, StoreStep, Pipeline, With;
    LeadsNowhere(s, c);
    after := s;
    if |s.sh.store.addBuf| == CAPACITY {
      if s.sh.store.addHand.Some? {
        AppendEmptiesHand(s.sh.store, 0);
        after := WorkerLeads(s, after, AddAppend(0), c);
      }
      ReceiveMakesRoom(after.sh.store);
      after := WorkerLeads(s, after, AddReceive, c);
    }
  }

  lemma MayCreateIs(sh: Shared, k: Key, v: nat, iv: nat)
    requires MayCreate(sh, k, v, iv)
    ensures LiveAt(Hist(sh.instances, k), v) && Hist(sh.instances, k)[v].obj.status.instanceID == ""
  {
  }

  lemma AcceptIs(sh: Shared, c: Cluster, k: Key)
    requires |sh.store.addBuf| < CAPACITY
    ensures var after := Accept(sh, c, k);
            && after.instances == sh.instances && after.inventories == sh.inventories
            && after.store == StoreStep(sh.store, AddSend(c))
            && Pipeline(after.store) == Pipeline(sh.store) + [c]
            && after.store.deleteBuf == sh.store.deleteBuf && after.store.deleteHand == sh.store.deleteHand
  {
  }

  /** What a reconcile holds once it has created its cluster. */
  function Created(o: ProviderInstance): ProviderInstance {
    WithPhase(WithDetails(WithPhase(o, Creating), Wanted(o)), Ready)
  }

  lemma CreatedIs(o: ProviderInstance)
    ensures Created(o).spec == o.spec && Created(o).status.instanceID == Wanted(o).id != ""
  {
    WantedHasID(o);
  }

  /** A create that nobody disturbs, up to the write that is to record it. */
  lemma CreatesUpToWrite(s: State, t: Tid, k: Key, v: nat, iv: nat) returns (sent: State)
    requires Resting(PcOf(s, t)) && MayCreate(s.sh, k, v, iv)
    requires Wanted(Hist(s.sh.instances, k)[v].obj).id !in Ids(List(s.sh.store))
    ensures Follows(s, sent)
    ensures sent.threads == s.threads[t := InInstance(k, v, Created(Hist(s.sh.instances, k)[v].obj), ReadyStatus)]
    ensures sent.sh.instances == s.sh.instances && sent.sh.inventories == s.sh.inventories
    ensures Pipeline(sent.sh.store) == Pipeline(s.sh.store) + [Wanted(Hist(s.sh.instances, k)[v].obj)]
    ensures sent.sh.store.deleteBuf == s.sh.store.deleteBuf && sent.sh.store.deleteHand == s.sh.store.deleteHand
    ensures |s.sh.store.addBuf| < CAPACITY ==>
              sent.sh.store == StoreStep(s.sh.store, AddSend(Wanted(Hist(s.sh.instances, k)[v].obj)))
  {
    hide Leads, Follows, Step, Wanted, List, Pipeline, StoreStep, MayCreate, WithDetails;
    MayCreateIs(s.sh, k, v, iv);
    var o := Hist(s.sh.instances, k)[v].obj;
    var scanned := With(s, t, AboutToSend(s.sh, k, v));
    WalksToSend(s, t, k, v, iv, k);
    var roomy := MakeRoom(scanned, k);
    LeadsOn(s, scanned, roomy, k, 1, 0);
    LeadsFollows(s, roomy, k, 1);
    Send(roomy, t, k, v, WithPhase(o, Creating), Wanted(o), s.sh.store.hdr);
    WantedHasID(o);
    FollowsByStep(s, roomy, Thread(t, Fine(0)));
    sent := Step(roomy, Thread(t, Fine(0)));
    AcceptIs(roomy.sh, Wanted(o), k);
  }

  lemma WorkerLeads(s: State, from: State, w: StoreAction, c: Key) returns (after: State)
    requires Leads(s, from, c, 0) && (w.AddAppend? || w.AddReceive?)
    ensures Leads(s, after, c, 0)
    ensures after == from.(sh := from.sh.(store := StoreStep(from.sh.store, w)))
    ensures Pipeline(after.sh.store) == Pipeline(from.sh.store)
    ensures after.sh.store.updateHand == from.sh.store.updateHand && after.sh.store.updateBuf == from.sh.store.updateBuf
    ensures after.sh.store.deleteBuf == from.sh.store.deleteBuf && after.sh.store.deleteHand == from.sh.store.deleteHand
  {
    hide Leads;
    after := Step(from, Worker(w));
    assert Calm(from, Worker(w), c);
    LeadsOnByStep(s, from, Worker(w), after, c, 0);
    WorkerKeepsPipeline(from.sh.store, w);
  }

  lemma WorkerKeepsPipeline(s: Store, w: StoreAction)
    requires w.AddAppend? || w.AddReceive?
    ensures Pipeline(StoreStep(s, w)) == Pipeline(s)
  {
  }

  /** Everything accepted becomes visible. */
  lemma {:induction false} DrainsAll(s: State, from: State, c: Key) returns (after: State)
    requires Leads(s, from, c, 0)
    ensures Leads(s, after, c, 0)
    ensures after == from.(sh := from.sh.(store := after.sh.store))
    ensures List(after.sh.store) == Pipeline(from.sh.store)
    ensures after.sh.store.addHand.None? && after.sh.store.addBuf == []
    ensures after.sh.store.deleteBuf == from.sh.store.deleteBuf && after.sh.store.deleteHand == from.sh.store.deleteHand
    decreases |from.sh.store.addBuf|
  {
    hide Leads;
    after := from;
    if from.sh.store.addHand.Some? {
      after := WorkerLeads(s, after, AddAppend(0), c);
    }
    if after.sh.store.addBuf != [] {
      var received := WorkerLeads(s, after, AddReceive, c);
      after := DrainsAll(s, received, c);
    }
  }
}
