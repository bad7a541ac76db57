/** What the store's workers do to the list, stated without reference to how they do it. */
module StoreLaws {
  import opened Types
  import opened ClusterStore

  /** The cluster a lookup by ID finds. */
  function Lookup(clusters: seq<Cluster>, id: string): Option<Cluster> {
    var i := FirstIndex(clusters, id);
    if i < |clusters| then Some(clusters[i]) else None
  }

  lemma FirstIndexIs(clusters: seq<Cluster>, id: string, i: nat)
    requires i <= |clusters| && (i < |clusters| ==> clusters[i].id == id)
    requires forall j :: 0 <= j < i ==> clusters[j].id != id
    ensures FirstIndex(clusters, id) == i
  {
  }

  lemma UnlistedIndex(clusters: seq<Cluster>, id: string)
    ensures FirstIndex(clusters, id) < |clusters| <==> id in Ids(clusters)
  {
    var i := FirstIndex(clusters, id);
    assert i < |clusters| ==> Ids(clusters)[i] == id;
  }

  lemma DistinctIds(clusters: seq<Cluster>)
    ensures Distinct(Ids(clusters)) <==>
              forall i, j :: 0 <= i < j < |clusters| ==> clusters[i].id != clusters[j].id
  {
    assert forall i :: 0 <= i < |clusters| ==> Ids(clusters)[i] == clusters[i].id;
  }

  lemma LookupFinds(clusters: seq<Cluster>, c: Cluster)
    requires Distinct(Ids(clusters)) && c in clusters
    ensures Lookup(clusters, c.id) == Some(c)
  {
    DistinctIds(clusters);
  }

  /** Deleting removes exactly the first match: nothing else is lost, duplicated or invented. */
  lemma {:induction false} SwapDeleteRemovesOne(clusters: seq<Cluster>, id: string)
    ensures Lookup(clusters, id).None? ==> SwapDeleted(clusters, id) == clusters
    ensures Lookup(clusters, id).Some? ==>
              && |SwapDeleted(clusters, id)| == |clusters| - 1
              && multiset(SwapDeleted(clusters, id)) == multiset(clusters) - multiset{Lookup(clusters, id).value}
  {
    var i := FirstIndex(clusters, id);
    if i < |clusters| {
      var n := |clusters| - 1;
      var last := clusters[n];
      assert clusters == clusters[..n] + [last];
      assert multiset(clusters) == multiset(clusters[..n]) + multiset{last};
      if i < n {
        assert clusters[i := last][..n] == clusters[..n][i := last];
        assert multiset(clusters[..n][i := last])
              == multiset(clusters[..n])[clusters[i] := multiset(clusters[..n])[clusters[i]] - 1] + multiset{last};
      } else {
        assert clusters[i := last][..n] == clusters[..n];
      }
    }
  }

  /** With unique IDs the deleted ID is gone and every other lookup answers as before. */
  lemma SwapDeleteKeepsOtherLookups(clusters: seq<Cluster>, id: string, other: string)
    requires Distinct(Ids(clusters))
    ensures Distinct(Ids(SwapDeleted(clusters, id)))
    ensures Lookup(SwapDeleted(clusters, id), id).None?
    ensures other != id ==> Lookup(SwapDeleted(clusters, id), other) == Lookup(clusters, other)
  {
    var after := SwapDeleted(clusters, id);
    var i := FirstIndex(clusters, id);
    DistinctIds(clusters);
    DistinctIds(after);
    if i < |clusters| {
      var n := |clusters| - 1;
      var k := FirstIndex(clusters, other);
      if other != id {
        if k < |clusters| {
          var at := if k == n then i else k;
          assert after[at] == clusters[k];
          LookupFinds(after, clusters[k]);
        } else {
          assert forall j :: 0 <= j < |after| ==> after[j] in clusters;
        }
      }
    }
  }

  /** Updating touches the first match only, so every ID stays where it was. */
  lemma ReplaceKeepsIds(clusters: seq<Cluster>, c: Cluster, other: string)
    ensures Ids(Replaced(clusters, c)) == Ids(clusters)
    ensures forall j :: 0 <= j < |clusters| && j != FirstIndex(clusters, c.id) ==>
              Replaced(clusters, c)[j] == clusters[j]
    ensures Lookup(clusters, c.id).Some? ==> Lookup(Replaced(clusters, c), c.id) == Some(c)
    ensures other != c.id ==> Lookup(Replaced(clusters, c), other) == Lookup(clusters, other)
  {
    var after := Replaced(clusters, c);
    assert |after| == |clusters| && forall i :: 0 <= i < |after| ==> after[i].id == clusters[i].id;
    var i, k := FirstIndex(clusters, c.id), FirstIndex(clusters, other);
    if i < |clusters| {
      FirstIndexIs(after, c.id, i);
    }
    if k < |clusters| {
      FirstIndexIs(after, other, k);
    } else {
      assert forall j :: 0 <= j < |after| ==> after[j].id != other;
    }
  }

  /** The slice steps compute those list functions, whatever the backing arrays hold. */
  lemma WorkersOnLists(s: Store, c: Cluster, id: string, spare: nat)
    ensures List(Append(s, c, spare)) == List(s) + [c]
    ensures List(Replace(s, c)) == Replaced(List(s), c)
    ensures List(SwapDelete(s, id)) == SwapDeleted(List(s), id)
  {
  }

  /** Each worker's step does to the list what it holds says, and empties its hand. */
  lemma AddIsApplied(s: Store, spare: nat)
    ensures var after := StoreStep(s, AddAppend(spare));
            after.addHand.None? && List(after) == List(s) + InHand(s.addHand)
  {
    hide Append, List;
    if s.addHand.Some? {
      WorkersOnLists(s.(addHand := None), s.addHand.value, "", spare);
    }
    SameList(s, s.(addHand := None));
  }

  lemma UpdateIsApplied(s: Store)
    ensures var after := StoreStep(s, UpdateApply);
            && after.updateHand.None?
            && List(after) == match s.updateHand case None => List(s) case Some(c) => Replaced(List(s), c)
  {
    hide Replace, Replaced, List;
    if s.updateHand.Some? {
      WorkersOnLists(s.(updateHand := None), s.updateHand.value, "", 0);
    }
    SameList(s, s.(updateHand := None));
  }

  lemma DeleteIsApplied(s: Store)
    ensures var after := StoreStep(s, DeleteApply);
            && after.deleteHand.None?
            && List(after) == match s.deleteHand case None => List(s) case Some(id) => SwapDeleted(List(s), id)
  {
    hide SwapDelete, SwapDeleted, List;
    if s.deleteHand.Some? {
      WorkersOnLists(s.(deleteHand := None), ZERO_CLUSTER, s.deleteHand.value, 0);
    }
    SameList(s, s.(deleteHand := None));
  }

  lemma SameList(a: Store, b: Store)
    requires a.mem == b.mem && a.hdr == b.hdr
    ensures List(a) == List(b)
  {
  }

  /** The update and delete channels hold five, and hand over what is sent in the order it is sent. */
  lemma ChannelsAreQueues(s: Store, c: Cluster, id: string)
    ensures var after := StoreStep(s, UpdateSend(c));
            InHand(after.updateHand) + after.updateBuf
            == InHand(s.updateHand) + s.updateBuf + if |s.updateBuf| < 5 then [c] else []
    ensures var after := StoreStep(s, UpdateReceive);
            && InHand(after.updateHand) + after.updateBuf == InHand(s.updateHand) + s.updateBuf
            && (s.updateBuf != [] ==> after.updateHand.Some?)
    ensures var after := StoreStep(s, DeleteSend(id));
            InHand(after.deleteHand) + after.deleteBuf
            == InHand(s.deleteHand) + s.deleteBuf + if |s.deleteBuf| < 5 then [id] else []
    ensures var after := StoreStep(s, DeleteReceive);
            && InHand(after.deleteHand) + after.deleteBuf == InHand(s.deleteHand) + s.deleteBuf
            && (s.deleteBuf != [] ==> after.deleteHand.Some?)
  {
  }

  /** A scan through an old header that shows the ID has not passed its end without meeting it. */
  lemma ScanIsNotOver(s: Store, h: Slice, i: nat, id: string)
    requires SeesIds(s, h) && i <= h.len && id in Ids(List(s))[..h.len]
    requires forall j :: 0 <= j < i ==> List(s)[j].id != id
    ensures i < h.len
  {
    var j :| 0 <= j < h.len && Ids(List(s))[..h.len][j] == id;
    assert List(s)[j].id == id;
  }

  lemma AppendEmptiesHand(s: Store, spare: nat)
    ensures StoreStep(s, AddAppend(spare)).addHand.None?
  {
  }

  lemma ReceiveMakesRoom(s: Store)
    requires s.addHand.None?
    ensures |StoreStep(s, AddReceive).addBuf| < CAPACITY
  {
  }

  /** A cluster whose ID nothing before it in the pipeline has is found exactly once it is listed. */
  lemma FoundOnceListed(before: seq<Cluster>, c: Cluster, list: seq<Cluster>, pipeline: seq<Cluster>)
    requires c.id !in Ids(before) && before + [c] <= pipeline && list <= pipeline
    ensures Lookup(list, c.id) == if |list| > |before| then Some(c) else None
  {
    var n := |before|;
    assert forall j :: 0 <= j < n ==> pipeline[j] == before[j] && Ids(before)[j] == before[j].id;
    assert pipeline[n] == c;
    assert forall j :: 0 <= j < |list| ==> list[j] == pipeline[j];
    FirstIndexIs(list, c.id, if |list| > n then n else |list|);
  }
}
