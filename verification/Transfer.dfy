/** The value-level invariant of a body transfer: what the flushed records have
    delivered, and how planning, reserving and appending a record keep it. */
module Transfer {
  import opened Sequences
  import opened FlowControl
  import opened Planner
  import opened Records

  type Bodies = seq<seq<Byte>>

  function Lengths(data: Bodies): (r: seq<int>) {
    seq(|data|, i requires 0 <= i < |data| => |data[i]|)
  }

  predicate Representable(data: Bodies) {
    forall i :: 0 <= i < |data| ==> |data[i]| < TWO_63
  }

  /** carrying lists exactly the streams with body bytes, each once. */
  predicate IsCarrying(data: Bodies, carrying: seq<int>) {
    && (forall k :: 0 <= k < |carrying| ==> 0 <= carrying[k] < |data| && |data[carrying[k]]| > 0)
    && (forall j, k :: 0 <= j < k < |carrying| ==> carrying[j] != carrying[k])
    && (forall i :: 0 <= i < |data| && i !in carrying ==> |data[i]| == 0)
  }

  /** sent counts what the records delivered of each body; while an END_STREAM is
      still owed, every body keeps a positive suffix. */
  predicate Progress(data: Bodies, sent: seq<int>, owing: bool) {
    && |sent| == |data|
    && forall i :: 0 <= i < |data| ==>
         && 0 <= sent[i] <= |data[i]|
         && (owing && |data[i]| > 0 ==> sent[i] < |data[i]|)
  }

  predicate DeliveredTo(data: Bodies, sent: seq<int>, records: seq<Record>)
    requires Progress(data, sent, false)
  {
    forall i :: 0 <= i < |data| ==> Delivered(records, i) == data[i][..sent[i]]
  }

  predicate Moved(data: Bodies, sent: seq<int>, records: seq<Record>, owing: bool) {
    && Progress(data, sent, false) && Progress(data, sent, owing)
    && DeliveredTo(data, sent, records)
    && AllWellSized(records) && AllOpen(records)
  }

  function Advance(sent: seq<int>, plan: seq<int>): (r: seq<int>)
    requires |sent| == |plan|
  {
    seq(|sent|, i requires 0 <= i < |sent| => sent[i] + plan[i])
  }

  function Zeros(n: nat): (r: seq<int>) { seq(n, _ => 0) }

  lemma NothingSent(data: Bodies, owing: bool)
    ensures Moved(data, Zeros(|data|), [], owing)
  {
  }

  /** A planned record extends every stream's delivered prefix by its slice. */
  lemma AppendDelivers(data: Bodies, sent: seq<int>, records: seq<Record>, carrying: seq<int>, plan: seq<int>,
                       end: bool, i: nat)
    requires IsCarrying(data, carrying) && Slices(data, sent, plan, carrying) && i < |data|
    requires 0 <= sent[i] <= |data[i]| && Delivered(records, i) == data[i][..sent[i]]
    requires i !in carrying ==> plan[i] == 0
    ensures 0 <= sent[i] + plan[i] <= |data[i]|
    ensures Delivered(records + [Frames(data, sent, plan, carrying, end, |carrying|)], i) ==
            data[i][..sent[i] + plan[i]]
  {
    DeliveredAppend(records, Frames(data, sent, plan, carrying, end, |carrying|), i);
    PlannedSlice(data, sent, carrying, plan, end, i);
    assert data[i][..sent[i]] + data[i][sent[i]..sent[i] + plan[i]] == data[i][..sent[i] + plan[i]];
  }

  lemma PlannedSlice(data: Bodies, sent: seq<int>, carrying: seq<int>, plan: seq<int>, end: bool, i: nat)
    requires Slices(data, sent, plan, carrying) && i < |data| && 0 <= sent[i] <= |data[i]|
    requires i !in carrying ==> plan[i] == 0
    ensures 0 <= sent[i] + plan[i] <= |data[i]| && plan[i] >= 0
    ensures PayloadOf(Frames(data, sent, plan, carrying, end, |carrying|), i) == data[i][sent[i]..sent[i] + plan[i]]
  {
    if i in carrying {
      var j :| 0 <= j < |carrying| && carrying[j] == i;
      FramesDeliver(data, sent, plan, carrying, end, |carrying|, j);
    } else {
      FramesSilent(data, sent, plan, carrying, end, |carrying|, i);
    }
  }

  lemma FramesAreWellSized(job: Job, credit: int, data: Bodies, sent: seq<int>, plan: seq<int>, end: bool)
    requires job.Valid() && Admissible(job, credit, plan) && Slices(data, sent, plan, job.carrying)
    ensures WellSized(Frames(data, sent, plan, job.carrying, end, |job.carrying|))
  {
    var n := |job.carrying|;
    FramesSize(data, sent, plan, job.carrying, end, n);
    FramesMembers(data, sent, plan, job.carrying, end, n);
    assert Gather(plan, job.carrying) == Pick(job, plan);
    SumAll(AllFrameBytes(Pick(job, plan)));
  }

  // ---------------------------------------------------------------------- jobs

  /** The bytes a stream may contribute now: its remaining body (less the byte kept
      for the final record), the frame and record size, and its credit. */
  function CapOf(left: int, owing: bool, frame: int, credit: int): int {
    Max(0, Min(Min(left - (if owing then 1 else 0), Min(frame, RECORD_BUDGET - FRAME_HEADER)), credit))
  }

  predicate IsCaps(data: Bodies, carrying: seq<int>, sent: seq<int>, stream: seq<int>, frame: int, owing: bool,
                   caps: seq<int>)
    requires |sent| == |stream| == |data|
  {
    && |caps| == |data|
    && (forall i :: 0 <= i < |data| ==> caps[i] == CapAt(data, carrying, sent, stream, frame, owing, i))
  }

  function CapAt(data: Bodies, carrying: seq<int>, sent: seq<int>, stream: seq<int>, frame: int, owing: bool,
                 i: int): int
    requires |sent| == |stream| == |data| && 0 <= i < |data|
  {
    if i in carrying then CapOf(|data[i]| - sent[i], owing, frame, stream[i]) else 0
  }

  lemma JobIsValid(data: Bodies, carrying: seq<int>, sent: seq<int>, stream: seq<int>, frame: int, owing: bool,
                   caps: seq<int>)
    requires Representable(data) && IsCarrying(data, carrying) && Progress(data, sent, owing) && |stream| == |data|
    requires IsCaps(data, carrying, sent, stream, frame, owing, caps)
    ensures Job(Lengths(data), sent, carrying, caps).Valid()
  {
    var job := Job(Lengths(data), sent, carrying, caps);
    forall k | 0 <= k < |carrying|
      ensures 0 <= carrying[k] < |job.length| && job.ValidStream(carrying[k])
    {
    }
  }

  /** plan takes from every stream no more than its body, its credit and what is
      owed allow. */
  predicate Bounded(data: Bodies, sent: seq<int>, stream: seq<int>, owing: bool, plan: seq<int>)
    requires |sent| == |stream| == |data|
  {
    && |plan| == |data|
    && forall i :: 0 <= i < |data| ==>
         && 0 <= plan[i] <= Max(0, stream[i])
         && sent[i] + plan[i] <= |data[i]| - (if owing && |data[i]| > 0 then 1 else 0)
  }

  lemma PlanIsBounded(data: Bodies, sent: seq<int>, stream: seq<int>, frame: int, owing: bool, job: Job, window: int,
                      plan: seq<int>)
    requires IsCarrying(data, job.carrying) && Progress(data, sent, owing) && |stream| == |data|
    requires IsCaps(data, job.carrying, sent, stream, frame, owing, job.caps)
    requires job.length == Lengths(data) && job.Valid() && Admissible(job, window, plan)
    ensures Bounded(data, sent, stream, owing, plan)
  {
    forall i | 0 <= i < |data|
      ensures 0 <= plan[i] <= Max(0, stream[i])
      ensures sent[i] + plan[i] <= |data[i]| - (if owing && |data[i]| > 0 then 1 else 0)
    {
      if i in job.carrying {
        var k :| 0 <= k < |job.carrying| && job.carrying[k] == i;
        assert 0 <= plan[job.carrying[k]] <= job.caps[job.carrying[k]];
      }
    }
  }

  lemma BoundedSlices(data: Bodies, carrying: seq<int>, sent: seq<int>, stream: seq<int>, owing: bool, plan: seq<int>)
    requires IsCarrying(data, carrying) && Progress(data, sent, owing) && |stream| == |data|
    requires Bounded(data, sent, stream, owing, plan)
    ensures Slices(data, sent, plan, carrying) && Progress(data, Advance(sent, plan), owing)
  {
  }

  lemma PlanTotal(job: Job, window: int, plan: seq<int>)
    requires job.Valid() && Admissible(job, window, plan)
    ensures Sum(plan) == Payload(job, plan) <= RecordBytes(job, plan)
  {
    assert Gather(plan, job.carrying) == Pick(job, plan);
    SumOfGathered(plan, job.carrying);
    SumMonotone(Pick(job, plan), AllFrameBytes(Pick(job, plan)));
  }

  /** Any admissible plan can be reserved from the credit it was planned with. */
  lemma PlanIsReservable(data: Bodies, sent: seq<int>, stream: seq<int>, owing: bool, job: Job, window: int,
                         plan: seq<int>)
    requires job.Valid() && Admissible(job, window, plan) && |sent| == |stream| == |data|
    requires Bounded(data, sent, stream, owing, plan)
    ensures CanReserve(window, stream, plan) && Sum(plan) <= RECORD_BUDGET
  {
    PlanTotal(job, window, plan);
  }

  lemma {:induction false} DeliveredAll(data: Bodies, carrying: seq<int>, sent: seq<int>, records: seq<Record>,
                                        plan: seq<int>, end: bool)
    requires IsCarrying(data, carrying) && Slices(data, sent, plan, carrying)
    requires Progress(data, sent, false) && DeliveredTo(data, sent, records)
    requires Progress(data, Advance(sent, plan), false)
    requires forall i :: 0 <= i < |data| && i !in carrying ==> plan[i] == 0
    ensures DeliveredTo(data, Advance(sent, plan), records + [Frames(data, sent, plan, carrying, end, |carrying|)])
  {
    var r := Frames(data, sent, plan, carrying, end, |carrying|);
    forall i | 0 <= i < |data|
      ensures Delivered(records + [r], i) == data[i][..Advance(sent, plan)[i]]
    {
      AppendDelivers(data, sent, records, carrying, plan, end, i);
    }
  }

  /** Flushing a planned intermediate record keeps the invariant. */
  lemma FlushPlanned(data: Bodies, sent: seq<int>, stream: seq<int>, records: seq<Record>, owing: bool, job: Job,
                     credit: int, plan: seq<int>)
    requires IsCarrying(data, job.carrying) && Moved(data, sent, records, owing) && |stream| == |data|
    requires job.Valid() && |job.length| == |data| && Admissible(job, credit, plan)
    requires Bounded(data, sent, stream, owing, plan) && Slices(data, sent, plan, job.carrying)
    ensures Moved(data, Advance(sent, plan),
                  records + [Frames(data, sent, plan, job.carrying, false, |job.carrying|)], owing)
  {
    BoundedSlices(data, job.carrying, sent, stream, owing, plan);
    FramesAreWellSized(job, credit, data, sent, plan, false);
    FramesMembers(data, sent, plan, job.carrying, false, |job.carrying|);
    DeliveredAll(data, job.carrying, sent, records, plan, false);
  }

  // ---------------------------------------------------------- the final record

  function Remaining(data: Bodies, sent: seq<int>): (r: seq<int>)
    requires |sent| == |data|
  {
    seq(|data|, i requires 0 <= i < |data| => |data[i]| - sent[i])
  }

  function FinalBytes(data: Bodies, sent: seq<int>, carrying: seq<int>): int
    requires |sent| == |data| && IsCarrying(data, carrying)
  {
    Sum(AllFrameBytes(Gather(Remaining(data, sent), carrying)))
  }

  /** The shared release: one non-empty END_STREAM frame for every carrying stream,
      in order, and nothing else, in one record. */
  predicate IsRelease(carrying: seq<int>, r: Record) {
    && WellSized(r)
    && |r| == |carrying|
    && forall k :: 0 <= k < |r| ==> r[k].stream == carrying[k] && r[k].end && |r[k].payload| > 0
  }

  lemma {:induction false} FramesInOrder(data: Bodies, sent: seq<int>, plan: seq<int>, list: seq<int>, end: bool,
                                         k: nat)
    requires Slices(data, sent, plan, list) && k <= |list|
    requires forall j :: 0 <= j < |list| ==> plan[list[j]] > 0
    ensures |Frames(data, sent, plan, list, end, k)| == k
    ensures forall j :: 0 <= j < k ==>
              Frames(data, sent, plan, list, end, k)[j] == NextFrame(data, sent, plan, list[j], end)
  {
    if k > 0 {
      FramesInOrder(data, sent, plan, list, end, k - 1);
    }
  }

  lemma RemainingSlices(data: Bodies, sent: seq<int>, carrying: seq<int>)
    requires IsCarrying(data, carrying) && Progress(data, sent, true)
    ensures Slices(data, sent, Remaining(data, sent), carrying)
    ensures forall k :: 0 <= k < |carrying| ==> Remaining(data, sent)[carrying[k]] > 0
    ensures forall i :: 0 <= i < |data| && i !in carrying ==> Remaining(data, sent)[i] == 0
  {
  }

  function Release(data: Bodies, sent: seq<int>, carrying: seq<int>): (r: Record)
    requires IsCarrying(data, carrying) && Progress(data, sent, true)
  {
    RemainingSlices(data, sent, carrying);
    Frames(data, sent, Remaining(data, sent), carrying, true, |carrying|)
  }

  /** Suffixes that fit make a release. */
  lemma ReleaseShape(data: Bodies, sent: seq<int>, carrying: seq<int>)
    requires IsCarrying(data, carrying) && Progress(data, sent, true)
    requires FinalBytes(data, sent, carrying) <= RECORD_BUDGET
    ensures IsRelease(carrying, Release(data, sent, carrying))
  {
    var rest := Remaining(data, sent);
    RemainingSlices(data, sent, carrying);
    FramesInOrder(data, sent, rest, carrying, true, |carrying|);
    FramesSize(data, sent, rest, carrying, true, |carrying|);
    SumAll(AllFrameBytes(Gather(rest, carrying)));
  }

  /** The release completes every body. */
  lemma ReleaseCompletes(data: Bodies, sent: seq<int>, carrying: seq<int>, records: seq<Record>)
    requires IsCarrying(data, carrying) && Progress(data, sent, true) && Progress(data, sent, false)
    requires DeliveredTo(data, sent, records)
    ensures forall i :: 0 <= i < |data| ==> Delivered(records + [Release(data, sent, carrying)], i) == data[i]
  {
    var rest := Remaining(data, sent);
    RemainingSlices(data, sent, carrying);
    forall i | 0 <= i < |data|
      ensures Delivered(records + [Release(data, sent, carrying)], i) == data[i]
    {
      AppendDelivers(data, sent, records, carrying, rest, true, i);
      assert data[i][..sent[i] + rest[i]] == data[i];
    }
  }

  // ------------------------------------------------------------------- stalling

  /** The windows cover everything that is left. */
  predicate Covered(data: Bodies, sent: seq<int>, stream: seq<int>, window: int)
    requires |sent| == |stream| == |data|
  {
    Sum(Remaining(data, sent)) <= window && forall i :: 0 <= i < |data| ==> |data[i]| - sent[i] <= stream[i]
  }

  predicate CanRelease(data: Bodies, sent: seq<int>, carrying: seq<int>, stream: seq<int>, window: int)
    requires |sent| == |stream| == |data| && IsCarrying(data, carrying)
  {
    FinalBytes(data, sent, carrying) <= RECORD_BUDGET && CanReserve(window, stream, Remaining(data, sent))
  }

  /** Debiting a plan from windows that cover the rest leaves the new rest covered. */
  lemma DebitKeepsCovered(data: Bodies, sent: seq<int>, stream: seq<int>, window: int, plan: seq<int>)
    requires |sent| == |stream| == |plan| == |data| && Covered(data, sent, stream, window)
    ensures Covered(data, Advance(sent, plan), Debited(stream, plan), window - Sum(plan))
  {
    RemainingShrinks(data, sent, plan);
  }

  lemma RemainingShrinks(data: Bodies, sent: seq<int>, plan: seq<int>)
    requires |sent| == |plan| == |data|
    ensures Sum(Remaining(data, Advance(sent, plan))) == Sum(Remaining(data, sent)) - Sum(plan)
  {
    var rest := Remaining(data, Advance(sent, plan));
    var whole := Remaining(data, sent);
    forall i | 0 <= i < |data|
      ensures Advance(rest, plan)[i] == whole[i]
    {
      assert rest[i] == |data[i]| - (sent[i] + plan[i]);
    }
    assert Advance(rest, plan) == whole;
    SumAdvance(rest, plan);
  }

  lemma {:induction false} SumAdvance(sent: seq<int>, plan: seq<int>)
    requires |sent| == |plan|
    ensures Sum(Advance(sent, plan)) == Sum(sent) + Sum(plan)
  {
    if sent != [] {
      var n := |sent| - 1;
      assert Advance(sent, plan)[..n] == Advance(sent[..n], plan[..n]);
      SumAdvance(sent[..n], plan[..n]);
    }
  }

  lemma ReservesRemaining(data: Bodies, sent: seq<int>, stream: seq<int>, window: int)
    requires |sent| == |stream| == |data| && Covered(data, sent, stream, window)
    ensures CanReserve(window, stream, Remaining(data, sent))
  {
  }

  lemma OneByteEach(data: Bodies, sent: seq<int>, carrying: seq<int>)
    requires |sent| == |data| && IsCarrying(data, carrying) && |carrying| <= 1024
    requires forall k :: 0 <= k < |carrying| ==> |data[carrying[k]]| - sent[carrying[k]] <= 1
    ensures FinalBytes(data, sent, carrying) <= RECORD_BUDGET
  {
    var costs := AllFrameBytes(Gather(Remaining(data, sent), carrying));
    assert forall k :: 0 <= k < |costs| ==> 0 <= costs[k] <= FRAME_HEADER + 1;
    SumBounds(costs, 0, FRAME_HEADER + 1);
  }

  /** A stream has nothing to give to an intermediate record: all but the byte kept for
      the release is sent, or its window is used up. */
  predicate UsedUp(left: int, owing: bool, credit: int) { left <= (if owing then 1 else 0) || credit <= 0 }

  /** No byte can be sent: the connection window or the window of every unfinished stream
      is used up, and no release is possible. */
  predicate Stalled(data: Bodies, sent: seq<int>, carrying: seq<int>, owing: bool, stream: seq<int>, window: int)
    requires |sent| == |stream| == |data| && (owing ==> IsCarrying(data, carrying))
  {
    && NothingToSend(data, sent, owing, stream, window)
    && (if owing then !CanRelease(data, sent, carrying, stream, window) else Unfinished(data, sent))
  }

  predicate NothingToSend(data: Bodies, sent: seq<int>, owing: bool, stream: seq<int>, window: int)
    requires |sent| == |stream| == |data|
  {
    window <= 0 || forall i :: 0 <= i < |data| && |data[i]| > 0 ==> UsedUp(|data[i]| - sent[i], owing, stream[i])
  }

  predicate Unfinished(data: Bodies, sent: seq<int>)
    requires |sent| == |data|
  {
    exists i :: 0 <= i < |data| && sent[i] < |data[i]|
  }

  /** Nothing can be planned exactly if there is nothing to send. */
  lemma NoPlanMeansNothing(data: Bodies, sent: seq<int>, stream: seq<int>, frame: int, owing: bool, job: Job,
                           window: int)
    requires IsCarrying(data, job.carrying) && |sent| == |stream| == |data| && frame >= 1
    requires IsCaps(data, job.carrying, sent, stream, frame, owing, job.caps) && job.Valid()
    ensures !CanSend(job, window) <==> NothingToSend(data, sent, owing, stream, window)
  {
    forall k | 0 <= k < |job.carrying|
      ensures job.caps[job.carrying[k]] <= 0 <==>
              UsedUp(|data[job.carrying[k]]| - sent[job.carrying[k]], owing, stream[job.carrying[k]])
    {
      assert job.carrying[k] in job.carrying;
    }
  }

  /** A stalled sender lacks credit: the windows do not cover what is left. The bound of
      1024 streams makes the shared release fit once one byte per stream is left. */
  lemma StuckMeansStarved(data: Bodies, sent: seq<int>, carrying: seq<int>, owing: bool, stream: seq<int>, window: int)
    requires IsCarrying(data, carrying) && 0 < |carrying| <= 1024 && |stream| == |data|
    requires Progress(data, sent, owing) && Stalled(data, sent, carrying, owing, stream, window)
    ensures !Covered(data, sent, stream, window)
  {
    if Covered(data, sent, stream, window) {
      SomethingLeft(data, sent, carrying, owing);
      if owing {
        OneByteEach(data, sent, carrying);
        ReservesRemaining(data, sent, stream, window);
      }
    }
  }

  lemma SomethingLeft(data: Bodies, sent: seq<int>, carrying: seq<int>, owing: bool)
    requires IsCarrying(data, carrying) && 0 < |carrying| && Progress(data, sent, owing)
    requires !owing ==> Unfinished(data, sent)
    ensures Sum(Remaining(data, sent)) > 0
  {
    var i := if owing then carrying[0] else var i :| 0 <= i < |data| && sent[i] < |data[i]|; i;
    SumOfNonNegative(Remaining(data, sent), i);
  }

  // ------------------------------------------------------------------- outcomes

  /** Nothing but unfinished, well-sized prefixes of the bodies is on the wire. */
  predicate Partial(data: Bodies, records: seq<Record>) {
    && AllWellSized(records) && AllOpen(records)
    && forall i :: 0 <= i < |data| ==> Delivered(records, i) <= data[i]
  }

  /** Every body is on the wire. With a release owed, exactly the last record ends
      streams, and it ends all carrying streams. */
  predicate Whole(data: Bodies, carrying: seq<int>, records: seq<Record>, owing: bool) {
    && AllWellSized(records)
    && (forall i :: 0 <= i < |data| ==> Delivered(records, i) == data[i])
    && (!owing ==> AllOpen(records))
    && (owing ==>
          && |records| > 0 && IsRelease(carrying, records[|records| - 1])
          && AllOpen(records[..|records| - 1]))
  }

  lemma MovedIsPartial(data: Bodies, sent: seq<int>, records: seq<Record>, owing: bool)
    requires Moved(data, sent, records, owing)
    ensures Partial(data, records) && DeliveredSizes(records, |data|) == sent
  {
  }

  lemma ReleaseIsWhole(data: Bodies, sent: seq<int>, carrying: seq<int>, records: seq<Record>)
    requires IsCarrying(data, carrying) && Moved(data, sent, records, true)
    requires FinalBytes(data, sent, carrying) <= RECORD_BUDGET
    ensures Whole(data, carrying, records + [Release(data, sent, carrying)], true)
  {
    ReleaseShape(data, sent, carrying);
    ReleaseCompletes(data, sent, carrying, records);
    assert (records + [Release(data, sent, carrying)])[..|records|] == records;
  }

  lemma FinishedIsWhole(data: Bodies, sent: seq<int>, carrying: seq<int>, records: seq<Record>)
    requires IsCarrying(data, carrying) && Moved(data, sent, records, false)
    requires forall k :: 0 <= k < |carrying| ==> sent[carrying[k]] >= |data[carrying[k]]|
    ensures Whole(data, carrying, records, false)
  {
    forall i | 0 <= i < |data|
      ensures Delivered(records, i) == data[i]
    {
      assert sent[i] == |data[i]| by {
        if i in carrying {
          var k :| 0 <= k < |carrying| && carrying[k] == i;
        }
      }
    }
  }
}
