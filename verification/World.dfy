/**
 The running operator, as the imperative controllers see it: a state that other goroutines, the
 store's workers and users may change before every call.
 */
module Running {
  import opened ClusterStore
  import opened StoreLaws
  import opened Api
  import opened Reconcilers
  import opened Operator
  import opened Growth
  import opened Invariants
  import opened ThreadSteps
  import opened Safety

  /** A step of anybody but goroutine t; nothing is deleted from the store. */
  predicate Elsewhere(a: Action, t: Tid) {
    NoDelete(a) && !(a.Thread? && a.t == t) && !(a.Spawn? && a.t == t)
  }

  class World {
    var st: State
    ghost var trace: seq<Action>  // the run so far

    ghost predicate Valid()
      reads this
    {
      NoDeletes(trace) && st == Run(INITIAL, trace)
    }

    /** Goroutine t has run since the trace was `before`, and was not started again. */
    ghost predicate Continues(before: seq<Action>, t: Tid)
      reads this
    {
      && before <= trace
      && forall i :: |before| <= i < |trace| ==> !(trace[i].Spawn? && trace[i].t == t)
    }

    constructor ()
      ensures Valid() && st == INITIAL && trace == []
    {
      st, trace := INITIAL, [];
    }

    method Act(a: Action)
      requires Valid() && NoDelete(a)
      modifies this
      ensures Valid() && st == Step(old(st), a) && trace == old(trace) + [a]
    {
      hide Step, NoDelete;
      st := Step(st, a);
      trace := trace + [a];
      assert trace[..|trace| - 1] == old(trace);
    }

    /** Others take any number of steps. */
    method Interfere(t: Tid)
      requires Valid()
      modifies this
      ensures Valid() && Continues(old(trace), t)
      ensures PcOf(st, t) == PcOf(old(st), t)
    {
      var n: nat := *;
      while n > 0
        invariant Valid() && Continues(old(trace), t)
        invariant PcOf(st, t) == PcOf(old(st), t)
      {
        var a: Action := *;
        if Elsewhere(a, t) {
          OthersLeavePc(st, a, t);
          Act(a);
        }
        n := n - 1;
      }
    }

    /** A blocked send resumes only after the add worker has made room. */
    method AwaitRoom(t: Tid)
      requires Valid()
      modifies this
      ensures Valid() && Continues(old(trace), t)
      ensures PcOf(st, t) == PcOf(old(st), t)
      ensures Enabled(st.sh, RequestOf(PcOf(st, t)))
    {
      hide Run, NoDeletes, RequestOf, StoreStep, UserStep, ThreadStep;
      if !Enabled(st.sh, RequestOf(PcOf(st, t))) {
        var spare: nat := *;
        if st.sh.store.addHand.Some? {
          OthersLeavePc(st, Worker(AddAppend(spare)), t);
          AppendEmptiesHand(st.sh.store, spare);
          Act(Worker(AddAppend(spare)));
        }
        OthersLeavePc(st, Worker(AddReceive), t);
        ReceiveMakesRoom(st.sh.store);
        Act(Worker(AddReceive));
      }
    }

    method Start(t: Tid, start: Pc)
      requires Valid() && Resting(PcOf(st, t)) && Starting(start)
      modifies this
      ensures Valid() && PcOf(st, t) == start
      ensures trace == old(trace) + [Spawn(t, start)]
    {
      Act(Spawn(t, start));
    }

    /** One call by goroutine t, after whatever others do first; the clock is read with the reply. */
    method Call(t: Tid, req: Request) returns (reply: Reply, now: nat)
      requires Valid()
      requires req == RequestOf(PcOf(st, t))
      modifies this
      ensures Valid() && Continues(old(trace), t)
      ensures PcOf(st, t) == Next(PcOf(old(st), t), reply, now)
      ensures PcOf(st, t) != Panicked
      ensures Fits(st.sh, req, reply)
      ensures Grows(old(st).sh, st.sh)
    {
      hide Run, NoDeletes, Next, Serve, RequestOf, Enabled, Fits, Grows;
      Interfere(t);
      AwaitRoom(t);
      var env: Env := *;
      ServeFits(st.sh, RequestOf(PcOf(st, t)), env);
      var served := Serve(st.sh, RequestOf(PcOf(st, t)), env);
      Act(Thread(t, env));
      reply, now := served.1, env.now;
      assert !PcOf(st, t).Panicked? by { NoPanic(st, trace, t); }
      Grown(old(trace), trace);
    }
  }

  lemma NoPanic(s: State, trace: seq<Action>, t: Tid)
    requires NoDeletes(trace) && s == Run(INITIAL, trace)
    ensures PcOf(s, t) != Panicked
  {
    hide Run, SharedOK, NoDeletes;
    RunKeeps(trace);
  }

  /** What a goroutine has concluded so far is true now. */
  lemma Knows(s: State, trace: seq<Action>, t: Tid)
    requires NoDeletes(trace) && s == Run(INITIAL, trace)
    ensures ThreadOK(s.sh, PcOf(s, t))
  {
    hide Run, SharedOK, NoDeletes, ThreadOK;
    RunKeeps(trace);
    IdleOK(s.sh);
  }

  /** What the reply to a status write says about the object that was to be stored. */
  lemma WriteSays(before: Shared, after: Shared, pc: Pc, reply: Reply)
    requires ThreadOK(before, pc) && Grows(before, after) && Fits(after, RequestOf(pc), reply)
    ensures pc.InInstance? && RequestOf(pc).UpdateInstanceStatus? ==>
              && (reply.Written? ==> IsNewest(Hist(after.instances, pc.key), pc.instance))
              && (reply.Conflict? ==> pc.base != |Hist(after.instances, pc.key)| - 1)
    ensures pc.InInventory? && RequestOf(pc).UpdateInventoryStatus? ==>
              && (reply.Written? ==> IsNewest(Hist(after.inventories, pc.key), pc.inventory))
              && (reply.Conflict? ==> pc.base != |Hist(after.inventories, pc.key)| - 1)
    ensures pc.InConnection? && RequestOf(pc).UpdateConnectionStatus? ==>
              && (reply.Written? ==> IsNewest(Hist(after.connections, pc.key), pc.connection))
              && (reply.Conflict? ==> pc.base != |Hist(after.connections, pc.key)| - 1)
  {
    hide InstanceThreadOK, InventoryThreadOK, ConnectionThreadOK, List, StoreGrows, Made;
    match pc
    case InInstance(k, base, o, _) =>
      assert Hist(before.instances, k) <= Hist(after.instances, k);
      assert Hist(after.instances, k)[base].obj.(status := o.status) == o;
    case InInventory(k, base, o, _) =>
      assert Hist(before.inventories, k) <= Hist(after.inventories, k);
      assert Hist(after.inventories, k)[base].obj.(status := o.status) == o;
    case InConnection(k, base, o, _) =>
      assert Hist(before.connections, k) <= Hist(after.connections, k);
      assert Hist(after.connections, k)[base].obj.(status := o.status) == o;
    case _ =>
  }

  lemma Grown(before: seq<Action>, after: seq<Action>)
    requires NoDeletes(after) && before <= after
    ensures Grows(Run(INITIAL, before).sh, Run(INITIAL, after).sh)
  {
    hide Run, Grows, NoDelete;
    var rest := after[|before|..];
    assert before + rest == after;
    RunAppends(INITIAL, before, rest);
    RunGrows(Run(INITIAL, before), rest);
  }

  lemma OthersLeavePc(s: State, a: Action, t: Tid)
    requires Elsewhere(a, t)
    ensures PcOf(Step(s, a), t) == PcOf(s, t)
  {
    hide Serve, Next, RequestOf, UserStep, StoreStep, Enabled;
  }
}
