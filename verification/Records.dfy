/** DATA frames grouped into flushed records, and what they deliver per stream. */
module Records {
  import opened Sequences
  import opened Planner

  type Byte = bv8

  /** stream is the position of the request in its batch. */
  datatype DataFrame = DataFrame(stream: nat, payload: seq<Byte>, end: bool)

  type Record = seq<DataFrame>

  function SizeOf(r: Record): int {
    if r == [] then 0 else SizeOf(r[..|r| - 1]) + FRAME_HEADER + |r[|r| - 1].payload|
  }

  /** The bytes that one record carries for stream i, in order. */
  function PayloadOf(r: Record, i: nat): seq<Byte> {
    if r == [] then []
    else
      var f := r[|r| - 1];
      PayloadOf(r[..|r| - 1], i) + if f.stream == i then f.payload else []
  }

  function Delivered(records: seq<Record>, i: nat): seq<Byte> {
    if records == [] then []
    else Delivered(records[..|records| - 1], i) + PayloadOf(records[|records| - 1], i)
  }

  predicate WellSized(r: Record) {
    SizeOf(r) <= RECORD_BUDGET && forall f <- r :: |f.payload| > 0
  }

  predicate Open(r: Record) { forall f <- r :: !f.end }

  predicate AllOpen(records: seq<Record>) { forall r <- records :: Open(r) }

  predicate AllWellSized(records: seq<Record>) { forall r <- records :: WellSized(r) }

  function Gather(s: seq<int>, list: seq<int>): (r: seq<int>)
    requires forall k :: 0 <= k < |list| ==> 0 <= list[k] < |s|
  {
    seq(|list|, k requires 0 <= k < |list| => s[list[k]])
  }

  predicate Slices(data: seq<seq<Byte>>, sent: seq<int>, plan: seq<int>, list: seq<int>) {
    && |sent| == |plan| == |data|
    && (forall k :: 0 <= k < |list| ==> 0 <= list[k] < |data|)
    && (forall j, k :: 0 <= j < k < |list| ==> list[j] != list[k])
    && (forall k :: 0 <= k < |list| ==>
          0 <= sent[list[k]] && 0 <= plan[list[k]] && sent[list[k]] + plan[list[k]] <= |data[list[k]]|)
  }

  function NextFrame(data: seq<seq<Byte>>, sent: seq<int>, plan: seq<int>, i: int, end: bool): (f: DataFrame)
    requires |sent| == |plan| == |data| && 0 <= i < |data|
    requires 0 <= sent[i] <= sent[i] + plan[i] <= |data[i]|
  {
    DataFrame(i, data[i][sent[i]..sent[i] + plan[i]], end)
  }

  /** The frames of one planned record: the next plan[i] bytes of each of the first
      k listed streams. */
  function Frames(data: seq<seq<Byte>>, sent: seq<int>, plan: seq<int>, list: seq<int>, end: bool, k: nat): (r: Record)
    requires Slices(data, sent, plan, list) && k <= |list|
  {
    if k == 0 then []
    else
      var i := list[k - 1];
      var before := Frames(data, sent, plan, list, end, k - 1);
      if plan[i] == 0 then before else before + [NextFrame(data, sent, plan, i, end)]
  }

  lemma {:induction false} FramesMembers(data: seq<seq<Byte>>, sent: seq<int>, plan: seq<int>, list: seq<int>,
                                         end: bool, k: nat)
    requires Slices(data, sent, plan, list) && k <= |list|
    ensures forall f <- Frames(data, sent, plan, list, end, k) ::
              f.end == end && |f.payload| > 0 && f.stream in list && plan[f.stream] > 0
  {
    if k > 0 {
      FramesMembers(data, sent, plan, list, end, k - 1);
    }
  }

  lemma SizeAppend(r: Record, f: DataFrame)
    ensures SizeOf(r + [f]) == SizeOf(r) + FRAME_HEADER + |f.payload|
  {
    assert (r + [f])[..|r|] == r;
  }

  lemma PayloadAppend(r: Record, f: DataFrame, i: nat)
    ensures PayloadOf(r + [f], i) == PayloadOf(r, i) + if f.stream == i then f.payload else []
  {
    assert (r + [f])[..|r|] == r;
  }

  /** What the records delivered of each of n streams. */
  function DeliveredSizes(records: seq<Record>, n: nat): (r: seq<int>)
    ensures |r| == n
  {
    seq(n, i requires 0 <= i < n => |Delivered(records, i)|)
  }

  lemma DeliveredAppend(records: seq<Record>, r: Record, i: nat)
    ensures Delivered(records + [r], i) == Delivered(records, i) + PayloadOf(r, i)
  {
    assert (records + [r])[..|records|] == records;
  }

  /** A planned record delivers exactly the planned slice of every listed stream. */
  lemma {:induction false} FramesDeliver(data: seq<seq<Byte>>, sent: seq<int>, plan: seq<int>, list: seq<int>,
                                         end: bool, k: nat, j: nat)
    requires Slices(data, sent, plan, list) && j < k <= |list|
    ensures PayloadOf(Frames(data, sent, plan, list, end, k), list[j]) ==
            NextFrame(data, sent, plan, list[j], end).payload
    decreases k
  {
    if j == k - 1 {
      LastDelivers(data, sent, plan, list, end, j);
    } else {
      FramesDeliver(data, sent, plan, list, end, k - 1, j);
      OthersKeep(data, sent, plan, list, end, k, j);
    }
  }

  lemma OthersKeep(data: seq<seq<Byte>>, sent: seq<int>, plan: seq<int>, list: seq<int>, end: bool, k: nat, j: nat)
    requires Slices(data, sent, plan, list) && j + 1 < k <= |list|
    ensures PayloadOf(Frames(data, sent, plan, list, end, k), list[j]) ==
            PayloadOf(Frames(data, sent, plan, list, end, k - 1), list[j])
  {
    ListedOnce(data, sent, plan, list, k - 1, j);
    FramesStep(data, sent, plan, list, end, k, list[j]);
  }

  lemma LastDelivers(data: seq<seq<Byte>>, sent: seq<int>, plan: seq<int>, list: seq<int>, end: bool, j: nat)
    requires Slices(data, sent, plan, list) && j < |list|
    ensures PayloadOf(Frames(data, sent, plan, list, end, j + 1), list[j]) ==
            NextFrame(data, sent, plan, list[j], end).payload
  {
    FramesSilent(data, sent, plan, list, end, j, list[j]);
    FramesStep(data, sent, plan, list, end, j + 1, list[j]);
  }

  lemma ListedOnce(data: seq<seq<Byte>>, sent: seq<int>, plan: seq<int>, list: seq<int>, j: nat, k: nat)
    requires Slices(data, sent, plan, list) && j < |list| && k < |list|
    ensures list[j] == list[k] <==> j == k
  {
  }

  /** The last listed stream adds its frame, and nothing to any other stream. */
  lemma FramesStep(data: seq<seq<Byte>>, sent: seq<int>, plan: seq<int>, list: seq<int>, end: bool, k: nat, i: nat)
    requires Slices(data, sent, plan, list) && 0 < k <= |list|
    ensures list[k - 1] != i ==>
              PayloadOf(Frames(data, sent, plan, list, end, k), i) ==
              PayloadOf(Frames(data, sent, plan, list, end, k - 1), i)
    ensures list[k - 1] == i && PayloadOf(Frames(data, sent, plan, list, end, k - 1), i) == [] ==>
              PayloadOf(Frames(data, sent, plan, list, end, k), i) == NextFrame(data, sent, plan, i, end).payload
  {
    var last := list[k - 1];
    if plan[last] > 0 {
      PayloadAppend(Frames(data, sent, plan, list, end, k - 1), NextFrame(data, sent, plan, last, end), i);
    }
  }

  lemma {:induction false} FramesSilent(data: seq<seq<Byte>>, sent: seq<int>, plan: seq<int>, list: seq<int>,
                                        end: bool, k: nat, i: nat)
    requires Slices(data, sent, plan, list) && k <= |list| && forall j :: 0 <= j < k ==> list[j] != i
    ensures PayloadOf(Frames(data, sent, plan, list, end, k), i) == []
  {
    if k > 0 {
      FramesSilent(data, sent, plan, list, end, k - 1, i);
      if plan[list[k - 1]] > 0 {
        PayloadAppend(Frames(data, sent, plan, list, end, k - 1), NextFrame(data, sent, plan, list[k - 1], end), i);
      }
    }
  }

  lemma {:induction false} FramesSize(data: seq<seq<Byte>>, sent: seq<int>, plan: seq<int>, list: seq<int>, end: bool,
                                      k: nat)
    requires Slices(data, sent, plan, list) && k <= |list|
    ensures SizeOf(Frames(data, sent, plan, list, end, k)) == Sum(AllFrameBytes(Gather(plan, list))[..k])
  {
    if k > 0 {
      FramesSize(data, sent, plan, list, end, k - 1);
      var costs := AllFrameBytes(Gather(plan, list));
      SumPrefix(costs, k - 1);
      assert costs[k - 1] == FrameBytes(plan[list[k - 1]]);
      if plan[list[k - 1]] > 0 {
        SizeAppend(Frames(data, sent, plan, list, end, k - 1), NextFrame(data, sent, plan, list[k - 1], end));
      }
    }
  }

  /** The plan serves only streams of the list, each listed once. */
  predicate Served(plan: seq<int>, list: seq<int>) {
    && (forall k :: 0 <= k < |list| ==> 0 <= list[k] < |plan|)
    && (forall j, k :: 0 <= j < k < |list| ==> list[j] != list[k])
    && (forall i :: 0 <= i < |plan| && i !in list ==> plan[i] == 0)
  }

  lemma ClearLast(plan: seq<int>, rest: seq<int>, last: nat)
    requires Served(plan, rest + [last]) && last < |plan|
    ensures Served(plan[last := 0], rest) && Gather(plan, rest + [last]) == Gather(plan[last := 0], rest) + [plan[last]]
  {
    var list := rest + [last];
    assert list[|rest|] == last;
    forall k | 0 <= k < |rest|
      ensures list[k] == rest[k] && rest[k] != last
    {
      assert list[k] != list[|rest|];
    }
  }

  /** A plan that is silent outside the list sums to its gathered part. */
  lemma {:induction false} SumOfGathered(plan: seq<int>, list: seq<int>)
    requires Served(plan, list)
    ensures Sum(plan) == Sum(Gather(plan, list))
    decreases |list|
  {
    if list == [] {
      SumZero(plan);
    } else {
      var rest, last := list[..|list| - 1], list[|list| - 1];
      assert list == rest + [last];
      ClearLast(plan, rest, last);
      SumUpdate(plan, last, 0);
      SumOfGathered(plan[last := 0], rest);
      SumPrefix(Gather(plan, list), |rest|);
      SumAll(Gather(plan, list));
    }
  }

  /** Every stream that the plan serves gets a frame. */
  lemma {:induction false} FrameFor(data: seq<seq<Byte>>, sent: seq<int>, plan: seq<int>, list: seq<int>, end: bool,
                                    k: nat, j: nat)
    requires Slices(data, sent, plan, list) && j < k <= |list| && plan[list[j]] > 0
    ensures NextFrame(data, sent, plan, list[j], end) in Frames(data, sent, plan, list, end, k)
  {
    if j < k - 1 {
      FrameFor(data, sent, plan, list, end, k - 1, j);
    }
  }
}
