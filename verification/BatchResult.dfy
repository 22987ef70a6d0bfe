/** Dense arrival ranks of one batch, and their re-keying by request. */
module BatchResult {
  import opened Perms
  import opened Arrangement

  /** arrived: final headers came; reset: the server reset the stream. arrival is the
      read sequence number of the headers, and may be sparse. */
  datatype Reply = Reply(arrived: bool, reset: bool, arrival: int, rank: int)

  /** order[rank] is the request whose response arrived at that rank. */
  datatype Batch = Batch(replies: seq<Reply>, order: seq<int>)

  datatype Fault = NegativeArrival | NeitherResponseNorReset | DuplicateArrival

  datatype Outcome<+T> = Ok(value: T) | Panic(fault: Fault)

  // ------------------------------------------------------------- ranking a batch

  /** The requests that arrived before a moment. */
  ghost function Earlier(replies: seq<Reply>, moment: int): set<int> {
    set j | 0 <= j < |replies| && replies[j].arrived && replies[j].arrival < moment
  }

  ghost function ArrivedSet(replies: seq<Reply>): set<int> {
    set j | 0 <= j < |replies| && replies[j].arrived
  }

  /** What a caller must supply: every reply arrived or was reset, and the arrivals
      carry distinct, non-negative sequence numbers. */
  predicate WellFormed(replies: seq<Reply>) {
    && (forall i :: 0 <= i < |replies| ==> if replies[i].arrived then replies[i].arrival >= 0 else replies[i].reset)
    && (forall i, j :: 0 <= i < j < |replies| && replies[i].arrived && replies[j].arrived ==>
         replies[i].arrival != replies[j].arrival)
  }

  predicate InRange(replies: seq<Reply>, order: seq<int>) {
    forall k :: 0 <= k < |order| ==> 0 <= order[k] < |replies|
  }

  /** order lists the given requests once each. */
  ghost predicate Lists(order: seq<int>, members: set<int>) { Distinct(order) && Elements(order) == members }

  predicate SortedBy(replies: seq<Reply>, order: seq<int>) {
    && InRange(replies, order)
    && forall a, b :: 0 <= a < b < |order| ==> replies[order[a]].arrival <= replies[order[b]].arrival
  }

  /** The arrived requests in input order, or the fault of the first bad reply. */
  method CollectArrived(replies: seq<Reply>) returns (r: Outcome<seq<int>>)
    ensures r.Ok? <==> forall i :: 0 <= i < |replies| ==>
              if replies[i].arrived then replies[i].arrival >= 0 else replies[i].reset
    ensures r.Ok? ==> Lists(r.value, ArrivedSet(replies)) && InRange(replies, r.value)
    ensures r.Panic? ==> r.fault != DuplicateArrival
  {
    var order := [];
    for i := 0 to |replies|
      invariant forall k :: 0 <= k < i ==> if replies[k].arrived then replies[k].arrival >= 0 else replies[k].reset
      invariant forall k :: 0 <= k < |order| ==> 0 <= order[k] < i
      invariant Lists(order, ArrivedSet(replies[..i]))
    {
      GrowArrived(replies, i, order);
      if replies[i].arrived {
        if replies[i].arrival < 0 {
          return Panic(NegativeArrival);
        }
        order := order + [i];
      } else if !replies[i].reset {
        return Panic(NeitherResponseNorReset);
      }
    }
    assert replies[..|replies|] == replies;
    r := Ok(order);
  }

  lemma GrowArrived(replies: seq<Reply>, i: nat, order: seq<int>)
    requires i < |replies| && Lists(order, ArrivedSet(replies[..i]))
    requires forall k :: 0 <= k < |order| ==> 0 <= order[k] < i
    ensures Lists(if replies[i].arrived then order + [i] else order, ArrivedSet(replies[..i + 1]))
  {
    assert ArrivedSet(replies[..i + 1]) ==
           if replies[i].arrived then ArrivedSet(replies[..i]) + {i} else ArrivedSet(replies[..i]);
    ElementsAppend(order, i);
  }

  lemma InsertLists(order: seq<int>, k: nat, x: int, members: set<int>)
    requires k <= |order| && Lists(order, members) && x !in members
    ensures Lists(order[..k] + [x] + order[k..], members + {x})
  {
    var after := order[..k] + [x] + order[k..];
    assert forall j :: 0 <= j < |order| ==> order[j] in Elements(order);
    assert forall j :: 0 <= j < |after| ==> after[j] == if j < k then order[j] else if j == k then x else order[j - 1];
    forall v
      ensures v in Elements(after) <==> v in Elements(order) + {x}
    {
      if v == x {
        assert after[k] == x;
      } else if v in Elements(order) {
        var j :| 0 <= j < |order| && order[j] == v;
        assert after[if j < k then j else j + 1] == v;
      }
    }
  }

  lemma InsertSorted(replies: seq<Reply>, order: seq<int>, k: nat, x: int)
    requires k <= |order| && SortedBy(replies, order) && 0 <= x < |replies|
    requires k > 0 ==> replies[order[k - 1]].arrival <= replies[x].arrival
    requires k < |order| ==> replies[x].arrival < replies[order[k]].arrival
    ensures SortedBy(replies, order[..k] + [x] + order[k..])
  {
    var after := order[..k] + [x] + order[k..];
    assert forall j :: 0 <= j < |after| ==> after[j] == if j < k then order[j] else if j == k then x else order[j - 1];
  }

  /** The place of x in a sorted list. */
  method FindPlace(replies: seq<Reply>, order: seq<int>, x: int) returns (k: nat)
    requires SortedBy(replies, order) && 0 <= x < |replies|
    ensures k <= |order|
    ensures k > 0 ==> replies[order[k - 1]].arrival <= replies[x].arrival
    ensures k < |order| ==> replies[x].arrival < replies[order[k]].arrival
  {
    k := |order|;
    while k > 0 && replies[order[k - 1]].arrival > replies[x].arrival
      invariant k <= |order|
      invariant k < |order| ==> replies[x].arrival < replies[order[k]].arrival
    {
      k := k - 1;
    }
  }

  /** Sorts requests by arrival. */
  method SortByArrival(replies: seq<Reply>, order: seq<int>) returns (sorted: seq<int>)
    requires InRange(replies, order) && Distinct(order)
    ensures SortedBy(replies, sorted) && Lists(sorted, Elements(order))
  {
    sorted := [];
    for i := 0 to |order|
      invariant SortedBy(replies, sorted) && Lists(sorted, Elements(order[..i]))
    {
      var k := FindPlace(replies, sorted, order[i]);
      InsertSorted(replies, sorted, k, order[i]);
      InsertLists(sorted, k, order[i], Elements(order[..i]));
      assert Elements(order[..i + 1]) == Elements(order[..i]) + {order[i]};
      sorted := sorted[..k] + [order[i]] + sorted[k..];
    }
    assert order[..|order|] == order;
  }

  predicate StrictlySorted(replies: seq<Reply>, order: seq<int>) {
    && InRange(replies, order)
    && forall a, b :: 0 <= a < b < |order| ==> replies[order[a]].arrival < replies[order[b]].arrival
  }

  /** Equal neighbours in the sorted list show every duplicate. */
  method FindDuplicate(replies: seq<Reply>, order: seq<int>) returns (duplicate: bool)
    requires SortedBy(replies, order)
    ensures !duplicate <==> StrictlySorted(replies, order)
  {
    var rank := 1;
    while rank < |order|
      invariant rank >= 1
      invariant forall a, b :: 0 <= a < b < |order| && b < rank ==>
                  replies[order[a]].arrival < replies[order[b]].arrival
    {
      if replies[order[rank - 1]].arrival == replies[order[rank]].arrival {
        return true;
      }
      rank := rank + 1;
    }
    duplicate := false;
  }

  lemma StrictMeansWellFormed(replies: seq<Reply>, order: seq<int>)
    requires SortedBy(replies, order) && Lists(order, ArrivedSet(replies))
    requires forall i :: 0 <= i < |replies| ==> if replies[i].arrived then replies[i].arrival >= 0 else replies[i].reset
    ensures StrictlySorted(replies, order) <==> WellFormed(replies)
  {
    if StrictlySorted(replies, order) {
      forall i, j | 0 <= i < j < |replies| && replies[i].arrived && replies[j].arrived
        ensures replies[i].arrival != replies[j].arrival
      {
        assert i in Elements(order) && j in Elements(order);
        var a :| 0 <= a < |order| && order[a] == i;
        var b :| 0 <= b < |order| && order[b] == j;
      }
    }
    if WellFormed(replies) {
      forall a, b | 0 <= a < b < |order|
        ensures replies[order[a]].arrival < replies[order[b]].arrival
      {
        assert order[a] in Elements(order) && order[b] in Elements(order);
        assert order[a] != order[b];
      }
    }
  }

  /** Ranks and order are inverse to each other on what arrived. */
  predicate Inverse(b: Batch) {
    && (forall k :: 0 <= k < |b.order| ==> 0 <= b.order[k] < |b.replies| && b.replies[b.order[k]].rank == k)
    && (forall i :: 0 <= i < |b.replies| && b.replies[i].arrived ==>
          0 <= b.replies[i].rank < |b.order| && b.order[b.replies[i].rank] == i)
    && (forall i :: 0 <= i < |b.replies| && !b.replies[i].arrived ==> b.replies[i].rank == -1 && i !in b.order)
  }

  /** The place in a strictly sorted order is the number of earlier arrivals. */
  lemma PlaceIsEarlierCount(replies: seq<Reply>, order: seq<int>, k: nat)
    requires StrictlySorted(replies, order) && Lists(order, ArrivedSet(replies)) && k < |order|
    ensures |Earlier(replies, replies[order[k]].arrival)| == k
  {
    var prefix := order[..k];
    DistinctSize(prefix);
    forall j
      ensures j in Elements(prefix) <==> j in Earlier(replies, replies[order[k]].arrival)
    {
      if j in Elements(prefix) {
        var a :| 0 <= a < k && order[a] == j;
        assert j in Elements(order);
      }
      if j in Earlier(replies, replies[order[k]].arrival) {
        assert j in Elements(order);
        var a :| 0 <= a < |order| && order[a] == j;
        assert a < k;
        assert prefix[a] == j;
      }
    }
    assert Elements(prefix) == Earlier(replies, replies[order[k]].arrival);
  }

  lemma InverseHolds(replies: seq<Reply>, ranked: seq<Reply>, order: seq<int>)
    requires |ranked| == |replies| && Lists(order, ArrivedSet(replies))
    requires forall i :: 0 <= i < |replies| ==> ranked[i].arrived == replies[i].arrived
    requires forall i :: 0 <= i < |replies| && !replies[i].arrived ==> ranked[i].rank == -1
    requires forall k :: 0 <= k < |order| ==> 0 <= order[k] < |ranked| && ranked[order[k]].rank == k
    ensures Inverse(Batch(ranked, order))
  {
    forall i | 0 <= i < |ranked| && ranked[i].arrived
      ensures 0 <= ranked[i].rank < |order| && order[ranked[i].rank] == i
    {
      assert i in Elements(order);
      var k :| 0 <= k < |order| && order[k] == i;
    }
    forall i | 0 <= i < |ranked| && !ranked[i].arrived
      ensures i !in order
    {
      assert forall k :: 0 <= k < |order| ==> order[k] in Elements(order);
    }
  }

  /** Writes -1 for what did not arrive and the place in the order for what did. */
  method WriteRanks(replies: seq<Reply>, order: seq<int>) returns (ranked: seq<Reply>)
    requires Lists(order, ArrivedSet(replies)) && InRange(replies, order)
    ensures |ranked| == |replies| && Inverse(Batch(ranked, order))
    ensures forall i :: 0 <= i < |replies| ==> ranked[i] == replies[i].(rank := ranked[i].rank)
  {
    ranked := seq(|replies|, i requires 0 <= i < |replies| =>
                               if replies[i].arrived then replies[i] else replies[i].(rank := -1));
    for k := 0 to |order|
      invariant |ranked| == |replies|
      invariant forall i :: 0 <= i < |replies| ==> ranked[i] == replies[i].(rank := ranked[i].rank)
      invariant forall i :: 0 <= i < |replies| && !replies[i].arrived ==> ranked[i].rank == -1
      invariant forall j :: 0 <= j < k ==> ranked[order[j]].rank == j
    {
      assert order[k] in Elements(order);
      ranked := ranked[order[k] := ranked[order[k]].(rank := k)];
    }
    InverseHolds(replies, ranked, order);
  }

  /** Assigns dense ranks: a reply's rank is the number of replies that arrived before
      it, and the arrival order is the inverse of the ranks. */
  method NewBatch(replies: seq<Reply>) returns (r: Outcome<Batch>)
    ensures r.Ok? <==> WellFormed(replies)
    ensures r.Ok? ==>
              && |r.value.replies| == |replies| && Inverse(r.value)
              && (forall i :: 0 <= i < |replies| ==> r.value.replies[i] == replies[i].(rank := r.value.replies[i].rank))
              && (forall i :: 0 <= i < |replies| && replies[i].arrived ==>
                    r.value.replies[i].rank == |Earlier(replies, replies[i].arrival)|)
  {
    var arrived := CollectArrived(replies);
    if arrived.Panic? {
      return Panic(arrived.fault);
    }
    var order := SortByArrival(replies, arrived.value);
    StrictMeansWellFormed(replies, order);
    var duplicate := FindDuplicate(replies, order);
    if duplicate {
      return Panic(DuplicateArrival);
    }
    var ranked := WriteRanks(replies, order);
    forall i | 0 <= i < |replies| && replies[i].arrived
      ensures ranked[i].rank == |Earlier(replies, replies[i].arrival)|
    {
      PlaceIsEarlierCount(replies, order, ranked[i].rank);
    }
    r := Ok(Batch(ranked, order));
  }

  // ------------------------------------------------------------------ re-keying

  /** Re-keys a batch from positions to requests. */
  ghost function Rekeyed(b: Batch, arrangement: seq<int>): Batch
    requires IsPerm(arrangement) && |arrangement| == |b.replies| && InRange(b.replies, b.order)
  {
    Batch(Scattered(b.replies, arrangement), seq(|b.order|, k requires 0 <= k < |b.order| => arrangement[b.order[k]]))
  }

  method ScatterBatch(b: Batch, arrangement: seq<int>) returns (out: Batch)
    requires IsPerm(arrangement) && |arrangement| == |b.replies| && InRange(b.replies, b.order)
    ensures out == Rekeyed(b, arrangement)
    ensures forall p :: 0 <= p < |arrangement| ==> out.replies[arrangement[p]] == b.replies[p]
    ensures |out.order| == |b.order| && forall k :: 0 <= k < |b.order| ==> out.order[k] == arrangement[b.order[k]]
  {
    var replies := Scatter(b.replies, arrangement);
    var order := new int[|b.order|];
    for k := 0 to |b.order|
      invariant replies[..] == Scattered(b.replies, arrangement)
      invariant forall j :: 0 <= j < k ==> order[j] == arrangement[b.order[j]]
    {
      order[k] := arrangement[b.order[k]];
    }
    out := Batch(replies[..], order[..]);
    assert out.order == Rekeyed(b, arrangement).order;
  }

  /** Re-keying by any arrangement gives reply p of the batch to request arrangement[p], and
      keeps ranks and order inverse. */
  lemma RekeyKeepsInverse(b: Batch, arrangement: seq<int>)
    requires IsPerm(arrangement) && |arrangement| == |b.replies| && Inverse(b)
    ensures Inverse(Rekeyed(b, arrangement))
    ensures forall p :: 0 <= p < |arrangement| ==> Rekeyed(b, arrangement).replies[arrangement[p]] == b.replies[p]
  {
    var r := Rekeyed(b, arrangement);
    forall i | 0 <= i < |r.replies|
      ensures r.replies[i].arrived ==> 0 <= r.replies[i].rank < |r.order| && r.order[r.replies[i].rank] == i
      ensures !r.replies[i].arrived ==> r.replies[i].rank == -1 && i !in r.order
    {
      var p := PermIndex(arrangement, i);
      assert r.replies[i] == b.replies[p];
      assert !b.replies[p].arrived ==> forall k :: 0 <= k < |b.order| ==> b.order[k] != p;
    }
  }

  // ----------------------------------------------------------- complete batches

  predicate AllArrived(b: Batch) { forall i :: 0 <= i < |b.replies| ==> b.replies[i].arrived }

  /** The ranks of a batch by request. */
  function Ranks(b: Batch): (r: seq<int>)
    ensures |r| == |b.replies|
    ensures forall i :: 0 <= i < |r| ==> r[i] == b.replies[i].rank
  {
    seq(|b.replies|, i requires 0 <= i < |b.replies| => b.replies[i].rank)
  }

  /** Whether the order is complete and the exact inverse of the ranks. */
  method FullArrivalOrder(b: Batch) returns (full: bool)
    ensures full <==> AllArrived(b) && |b.order| == |b.replies| && Inverse(b)
  {
    for i := 0 to |b.replies|
      invariant forall k :: 0 <= k < i ==> b.replies[k].arrived
    {
      if !b.replies[i].arrived {
        return false;
      }
    }
    if |b.order| != |b.replies| {
      return false;
    }
    for rank := 0 to |b.order|
      invariant forall k :: 0 <= k < rank ==> 0 <= b.order[k] < |b.replies| && b.replies[b.order[k]].rank == k
    {
      if b.order[rank] < 0 || b.order[rank] >= |b.replies| || b.replies[b.order[rank]].rank != rank {
        return false;
      }
    }
    OneSidedIsInverse(b);
    full := true;
  }

  /** A full-length order whose entries carry their own ranks is a two-sided inverse. */
  lemma OneSidedIsInverse(b: Batch)
    requires AllArrived(b) && |b.order| == |b.replies|
    requires forall k :: 0 <= k < |b.order| ==> 0 <= b.order[k] < |b.replies| && b.replies[b.order[k]].rank == k
    ensures Inverse(b)
  {
    forall j, k | 0 <= j < k < |b.order|
      ensures b.order[j] != b.order[k]
    {
      assert b.replies[b.order[j]].rank != b.replies[b.order[k]].rank;
    }
    forall i | 0 <= i < |b.replies|
      ensures 0 <= b.replies[i].rank < |b.order| && b.order[b.replies[i].rank] == i
    {
      var k := PermIndex(b.order, i);
    }
  }

  lemma FullRanksArePerm(b: Batch)
    requires AllArrived(b) && |b.order| == |b.replies| && Inverse(b)
    ensures IsPerm(Ranks(b)) && IsPerm(b.order)
  {
    forall i, j | 0 <= i < j < |b.replies|
      ensures Ranks(b)[i] != Ranks(b)[j]
    {
      assert b.order[b.replies[i].rank] == i;
    }
    forall i, j | 0 <= i < j < |b.order|
      ensures b.order[i] != b.order[j]
    {
      assert b.replies[b.order[i]].rank == i && b.replies[b.order[j]].rank == j;
    }
  }
}
