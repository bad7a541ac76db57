/** The store's goroutine bodies on real arrays, each proved to be one step of ClusterStore. */
module FakeClusterStore {
  import opened Types
  import opened ClusterStore
  import opened StoreLaws

  class FakeClusters {
    var data: array<Cluster>      // the backing array the shared header points to
    var len: nat                  // the length in the shared header
    var addCluster: seq<Cluster>
    var addHand: Option<Cluster>
    var updateCluster: seq<Cluster>
    var updateHand: Option<Cluster>
    var deleteCluster: seq<string>
    var deleteHand: Option<string>
    ghost var arrays: seq<array<Cluster>>   // every backing array, the current one last

    ghost predicate Live()
      reads this
    {
      && arrays != []
      && arrays[|arrays| - 1] == data
      && (forall i, j :: 0 <= i < j < |arrays| ==> arrays[i] != arrays[j])
      && len <= data.Length
      && |addCluster| <= CAPACITY
      && |updateCluster| <= CAPACITY
      && |deleteCluster| <= CAPACITY
    }

    /** The store as a value: what a reader of any header ever handed out can see. */
    ghost function Abs(): Store
      reads this, arrays
      requires Live()
    {
      StoreState(
        seq(|arrays|, i requires 0 <= i < |arrays| reads this, arrays => arrays[i][..]),
        Slice(|arrays| - 1, len),
        addCluster, addHand, updateCluster, updateHand, deleteCluster, deleteHand)
    }

    constructor ()
      ensures Live() && fresh(data) && Abs() == INITIAL_STORE
    {
      var seeds := new Cluster[3](i requires 0 <= i < 3 => SEEDS[i]);
      data, len := seeds, 3;
      addCluster, updateCluster, deleteCluster := [], [], [];
      addHand, updateHand, deleteHand := None, None, None;
      arrays := [seeds];
      new;
      assert data[..] == SEEDS;
    }

    /** A send on addCluster that finds room. */
    method SendAdd(c: Cluster)
      requires Live() && |addCluster| < CAPACITY
      modifies this`addCluster
      ensures Live() && Abs() == StoreStep(old(Abs()), AddSend(c))
    {
      addCluster := addCluster + [c];
    }

    method ReceiveAdd()
      requires Live() && addHand.None? && addCluster != []
      modifies this`addCluster, this`addHand
      ensures Live() && Abs() == StoreStep(old(Abs()), AddReceive)
    {
      addHand, addCluster := Some(addCluster[0]), addCluster[1..];
    }

    /** What append allocates when the backing array is full. */
    static method Reallocated(full: array<Cluster>, c: Cluster, spare: nat) returns (grown: array<Cluster>)
      ensures fresh(grown)
      ensures grown[..] == full[..] + [c] + seq(spare, _ => ZERO_CLUSTER)
    {
      var n := full.Length;
      grown := new Cluster[n + 1 + spare](_ => ZERO_CLUSTER);
      for i := 0 to n
        invariant grown[..i] == full[..i]
        invariant forall j :: i <= j < grown.Length ==> grown[j] == ZERO_CLUSTER
      {
        grown[i] := full[i];
      }
      grown[n] := c;
    }

    /** The add worker under the lock; spare is the extra room a reallocation leaves. */
    method AppendHeld(spare: nat)
      requires Live() && addHand.Some?
      modifies this`data, this`len, this`arrays, this`addHand, data
      ensures Live() && Abs() == StoreStep(old(Abs()), AddAppend(spare))
      ensures old(len) == old(data.Length) ==> fresh(data)
    {
      var c := addHand.value;
      ghost var before := Abs();
      addHand := None;
      if len < data.Length {
        data[len] := c;
        assert data[..] == before.mem[|arrays| - 1][len := c];
      } else {
        var grown := Reallocated(data, c, spare);
        assert grown[..] == List(before) + [c] + seq(spare, _ => ZERO_CLUSTER);
        arrays := arrays + [grown];
        data := grown;
        assert forall i :: 0 <= i < |before.mem| ==> arrays[i][..] == before.mem[i];
      }
      len := len + 1;
      assert Abs().mem == Append(before.(addHand := None), c, spare).mem;
    }

    method ReceiveUpdate()
      requires Live() && updateHand.None? && updateCluster != []
      modifies this`updateCluster, this`updateHand
      ensures Live() && Abs() == StoreStep(old(Abs()), UpdateReceive)
    {
      updateHand, updateCluster := Some(updateCluster[0]), updateCluster[1..];
    }

    /** An assignment to one element of the shared slice. */
    method Overwrite(i: nat, c: Cluster)
      requires Live() && i < len
      modifies data
      ensures Live()
      ensures Abs() == old(Abs()).(mem := old(Abs()).mem[|arrays| - 1 := old(data[..])[i := c]])
    {
      ghost var before := Abs();
      data[i] := c;
      assert data[..] == before.mem[|arrays| - 1][i := c];
      assert forall j :: 0 <= j < |arrays| - 1 ==> arrays[j][..] == before.mem[j];
    }

    /** The update worker under the lock: overwrite the first match in place. */
    method ReplaceHeld()
      requires Live() && updateHand.Some?
      modifies this`updateHand, data
      ensures Live() && Abs() == StoreStep(old(Abs()), UpdateApply)
    {
      var c := updateHand.value;
      ghost var list := List(Abs());
      updateHand := None;
      var i := 0;
      while i < len && data[i].id != c.id
        invariant i <= len
        invariant forall j :: 0 <= j < i ==> list[j].id != c.id
      {
        i := i + 1;
      }
      FirstIndexIs(list, c.id, i);
      if i < len {
        Overwrite(i, c);
      }
    }

    method ReceiveDelete()
      requires Live() && deleteHand.None? && deleteCluster != []
      modifies this`deleteCluster, this`deleteHand
      ensures Live() && Abs() == StoreStep(old(Abs()), DeleteReceive)
    {
      deleteHand, deleteCluster := Some(deleteCluster[0]), deleteCluster[1..];
    }

    /** The delete worker under the lock: move the last element over the first match and truncate. */
    method SwapDeleteHeld()
      requires Live() && deleteHand.Some?
      modifies this`deleteHand, this`len, data
      ensures Live() && Abs() == StoreStep(old(Abs()), DeleteApply)
    {
      hide StoreStep, FirstIndex;
      var id := deleteHand.value;
      ghost var list := List(Abs());
      DeleteApplied(Abs());
      deleteHand := None;
      var i := 0;
      while i < len && data[i].id != id
        invariant i <= len
        invariant forall j :: 0 <= j < i ==> list[j].id != id
      {
        i := i + 1;
      }
      FirstIndexIs(list, id, i);
      if i < len {
        Overwrite(i, data[len - 1]);
        len := len - 1;
      }
    }
  }

  lemma DeleteApplied(s: Store)
    requires s.deleteHand.Some?
    ensures var a, n, i := s.hdr.arr, s.hdr.len, FirstIndex(List(s), s.deleteHand.value);
            StoreStep(s, DeleteApply)
            == if i < n then s.(deleteHand := None, mem := s.mem[a := s.mem[a][i := s.mem[a][n - 1]]],
                  hdr := Slice(a, n - 1))
               else s.(deleteHand := None)
  {
  }
}
