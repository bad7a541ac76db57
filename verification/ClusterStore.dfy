/**
 The in-memory cluster store at the grain its goroutines interleave: backing arrays and a slice
 header that clients read without the lock, three bounded channels, and a value in each worker's hand.
 */
module ClusterStore {
  import opened Types

  /** A slice header: the backing array it points to and its length. */
  datatype Slice = Slice(arr: nat, len: nat)

  datatype StoreState = StoreState(
    mem: seq<seq<Cluster>>,       // every backing array ever allocated
    hdr: Slice,                   // the shared header
    addBuf: seq<Cluster>,
    addHand: Option<Cluster>,
    updateBuf: seq<Cluster>,
    updateHand: Option<Cluster>,
    deleteBuf: seq<string>,
    deleteHand: Option<string>)

  const CAPACITY := 5

  predicate Valid(s: StoreState) {
    && s.hdr.arr < |s.mem|
    && s.hdr.len <= |s.mem[s.hdr.arr]|
    && |s.addBuf| <= CAPACITY
    && |s.updateBuf| <= CAPACITY
    && |s.deleteBuf| <= CAPACITY
  }

  type Store = s: StoreState | Valid(s)
    witness StoreState([[]], Slice(0, 0), [], None, [], None, [], None)

  /** The shared slice as a value. */
  function List(s: Store): seq<Cluster> {
    s.mem[s.hdr.arr][..s.hdr.len]
  }

  function InHand<T>(hand: Option<T>): seq<T> {
    match hand
    case None => []
    case Some(c) => [c]
  }

  /** Everything accepted so far, in the order it becomes visible. */
  function Pipeline(s: Store): seq<Cluster> {
    List(s) + InHand(s.addHand) + s.addBuf
  }

  /** The position of the first cluster with the given ID, or the length if there is none. */
  function FirstIndex(clusters: seq<Cluster>, id: string): (i: nat)
    ensures i <= |clusters|
    ensures forall j :: 0 <= j < i ==> clusters[j].id != id
    ensures i < |clusters| ==> clusters[i].id == id
  {
    assert forall j :: 0 <= j < |clusters| ==> Ids(clusters)[j] == clusters[j].id;
    IndexOf(Ids(clusters), id)
  }

  /** What the update worker does to the list: overwrite the first match. */
  function Replaced(clusters: seq<Cluster>, c: Cluster): seq<Cluster> {
    var i := FirstIndex(clusters, c.id);
    if i < |clusters| then clusters[i := c] else clusters
  }

  /** What the delete worker does to the list: move the last element over the first match. */
  function SwapDeleted(clusters: seq<Cluster>, id: string): seq<Cluster> {
    var i := FirstIndex(clusters, id);
    if i < |clusters| then clusters[i := clusters[|clusters| - 1]][..|clusters| - 1] else clusters
  }

  const SEEDS: seq<Cluster> := [
    Cluster("a-cluster-instance-1-id", "a-cluster-test-1", "", "", "GCP", "CREATED", "", "",
            [Region("region-1", "free-tier4.cloud")], A_DATE, A_DATE),
    Cluster("a-cluster-instance-2-id", "a-cluster-test-2", "", "", "AWS", "CREATED", "", "",
            [Region("region-2", "free-tier5.cloud")], A_DATE, A_DATE),
    Cluster("a-cluster-instance-id-a-provider-test-instance-name", "provider-test-instance-name", "", "", "AWS",
            "CREATED", "", "", [Region("region-3", "free-tier6.cloud")], A_DATE, A_DATE)]

  /** The date literal of the source has a five-digit year, so parsing it leaves the zero time. */
  const A_DATE := "0001-01-01 00:00:00 +0000 UTC"

  const ZERO_CLUSTER := Cluster("", "", "", "", "", "", "", "", [], "", "")

  const INITIAL_STORE: Store := StoreState([SEEDS], Slice(0, 3), [], None, [], None, [], None)

  datatype StoreAction =
    | AddSend(c: Cluster)
    | AddReceive
    | AddAppend(spare: nat)       // spare is the room a reallocation leaves
    | UpdateSend(c: Cluster)
    | UpdateReceive
    | UpdateApply
    | DeleteSend(id: string)
    | DeleteReceive
    | DeleteApply

  predicate Deletes(a: StoreAction) {
    a.DeleteSend? || a.DeleteReceive? || a.DeleteApply?
  }

  predicate Updates(a: StoreAction) {
    a.UpdateSend? || a.UpdateReceive? || a.UpdateApply?
  }

  /** A step of the add pipeline. */
  predicate Adds(a: StoreAction) {
    !Deletes(a) && !Updates(a)
  }

  /** append: in place while the backing array has room, else into a new and larger array. */
  function Append(s: Store, c: Cluster, spare: nat): (after: Store)
    ensures after == s.(mem := after.mem, hdr := after.hdr)
  {
    var a, n := s.hdr.arr, s.hdr.len;
    if n < |s.mem[a]| then
      s.(mem := s.mem[a := s.mem[a][n := c]], hdr := Slice(a, n + 1))
    else
      s.(mem := s.mem + [List(s) + [c] + seq(spare, _ => ZERO_CLUSTER)], hdr := Slice(|s.mem|, n + 1))
  }

  function Replace(s: Store, c: Cluster): (after: Store)
    ensures after == s.(mem := after.mem, hdr := after.hdr)
  {
    var a, i := s.hdr.arr, FirstIndex(List(s), c.id);
    if i < s.hdr.len then s.(mem := s.mem[a := s.mem[a][i := c]]) else s
  }

  function SwapDelete(s: Store, id: string): (after: Store)
    ensures after == s.(mem := after.mem, hdr := after.hdr)
  {
    var a, n, i := s.hdr.arr, s.hdr.len, FirstIndex(List(s), id);
    if i < n then
      s.(mem := s.mem[a := s.mem[a][i := s.mem[a][n - 1]]], hdr := Slice(a, n - 1))
    else s
  }

  /** One atomic step of the store; a step that is not enabled changes nothing. */
  function StoreStep(s: Store, action: StoreAction): Store {
    match action
    case AddSend(c) => if |s.addBuf| < CAPACITY then s.(addBuf := s.addBuf + [c]) else s
    case AddReceive =>
      if s.addHand.None? && s.addBuf != [] then s.(addHand := Some(s.addBuf[0]), addBuf := s.addBuf[1..]) else s
    case AddAppend(spare) =>
      if s.addHand.Some? then Append(s.(addHand := None), s.addHand.value, spare) else s
    case UpdateSend(c) => if |s.updateBuf| < CAPACITY then s.(updateBuf := s.updateBuf + [c]) else s
    case UpdateReceive =>
      if s.updateHand.None? && s.updateBuf != [] then
        s.(updateHand := Some(s.updateBuf[0]), updateBuf := s.updateBuf[1..])
      else s
    case UpdateApply =>
      if s.updateHand.Some? then Replace(s.(updateHand := None), s.updateHand.value) else s
    case DeleteSend(id) => if |s.deleteBuf| < CAPACITY then s.(deleteBuf := s.deleteBuf + [id]) else s
    case DeleteReceive =>
      if s.deleteHand.None? && s.deleteBuf != [] then
        s.(deleteHand := Some(s.deleteBuf[0]), deleteBuf := s.deleteBuf[1..])
      else s
    case DeleteApply =>
      if s.deleteHand.Some? then SwapDelete(s.(deleteHand := None), s.deleteHand.value) else s
  }

  /** A header read earlier still shows the IDs of a prefix of today's list. */
  predicate SeesIds(s: Store, h: Slice) {
    && h.arr < |s.mem|
    && h.len <= |s.mem[h.arr]|
    && h.len <= s.hdr.len
    && forall i :: 0 <= i < h.len ==> s.mem[h.arr][i].id == s.mem[s.hdr.arr][i].id
  }

  /** A header read earlier still shows a prefix of today's list, contents included. */
  predicate SeesClusters(s: Store, h: Slice) {
    SeesIds(s, h) && forall i :: 0 <= i < h.len ==> s.mem[h.arr][i] == s.mem[s.hdr.arr][i]
  }

  lemma SnapshotKeepsIds(s: Store, action: StoreAction, h: Slice)
    requires !Deletes(action)
    requires SeesIds(s, h)
    ensures SeesIds(StoreStep(s, action), h)
  {
  }

  lemma SnapshotKeepsClusters(s: Store, action: StoreAction, h: Slice)
    requires !Deletes(action) && !Updates(action) && s.updateHand.None?
    requires SeesClusters(s, h)
    ensures SeesClusters(StoreStep(s, action), h)
  {
  }

  lemma IdsGrow(s: Store, action: StoreAction)
    requires !Deletes(action)
    ensures Ids(List(s)) <= Ids(List(StoreStep(s, action)))
    ensures Ids(Pipeline(StoreStep(s, action)))
         == Ids(Pipeline(s)) + if action.AddSend? && |s.addBuf| < CAPACITY then [action.c.id] else []
  {
  }

  lemma ListGrows(s: Store, action: StoreAction)
    requires !Deletes(action) && !Updates(action) && s.updateHand.None?
    ensures List(s) <= List(StoreStep(s, action))
    ensures Pipeline(StoreStep(s, action))
         == Pipeline(s) + if action.AddSend? && |s.addBuf| < CAPACITY then [action.c] else []
  {
  }
}
