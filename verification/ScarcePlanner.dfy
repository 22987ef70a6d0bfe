/** The scarce-credit substitute for a small greedy record: useful chunks on the
    least-progressed streams instead of a byte on every stream. */
module ScarcePlanner {
  import opened Sequences
  import opened FlowControl
  import opened Planner

  const USEFUL_CAP := 64

  /** No stream leads by more than one thirty-second of its body. */
  function LeadBudget(length: int): int { Max(1, (length + 31) / 32) }

  predicate Candidate(job: Job, lagging: set<int>, k: nat)
    requires job.Valid() && k < |job.carrying|
  {
    var i := job.carrying[k];
    job.caps[i] > 0 && (job.caps[i] >= Min(USEFUL_CAP, Longest(Pick(job, job.caps))) || i in lagging)
  }

  /** A candidate that this record can still serve. */
  predicate Open(job: Job, lagging: set<int>, plan: seq<int>, k: nat)
    requires job.Valid() && |plan| == |job.length| && k < |job.carrying|
  {
    var i := job.carrying[k];
    && Candidate(job, lagging, k)
    && plan[i] < job.caps[i] && plan[i] < LeadBudget(job.length[i])
    && (plan[i] == 0 ==> RecordBytes(job, plan) + FRAME_HEADER + 1 <= RECORD_BUDGET)
  }

  predicate Useful(job: Job, credit: int, lagging: set<int>, plan: seq<int>)
    requires job.Valid()
  {
    && Admissible(job, credit, plan)
    && forall k :: 0 <= k < |job.carrying| && plan[job.carrying[k]] > 0 ==>
         Candidate(job, lagging, k) && plan[job.carrying[k]] <= LeadBudget(job.length[job.carrying[k]])
  }

  method MaxCap(job: Job) returns (m: int)
    requires job.Valid()
    ensures m == Longest(Pick(job, job.caps))
  {
    m := 0;
    ghost var caps := Pick(job, job.caps);
    for k := 0 to |job.carrying|
      invariant m == Longest(caps[..k])
    {
      assert caps[..k + 1][..k] == caps[..k];
      m := Max(m, job.caps[job.carrying[k]]);
    }
    assert caps[..|caps|] == caps;
  }

  /** The least-progressed open candidate. */
  method PickOpen(job: Job, lagging: set<int>, useful: int, plan: seq<int>, bytes: int) returns (best: Option<nat>)
    requires job.Valid() && WithinCaps(job, plan) && bytes == RecordBytes(job, plan)
    requires useful == Min(USEFUL_CAP, Longest(Pick(job, job.caps)))
    ensures best.Some? ==> best.value < |job.carrying| && Open(job, lagging, plan, best.value)
    ensures forall k :: 0 <= k < |job.carrying| && Open(job, lagging, plan, k) ==>
              best.Some? && !LessProgress(job, plan, job.carrying[k], job.carrying[best.value])
  {
    best := None;
    for k := 0 to |job.carrying|
      invariant best.Some? ==> best.value < k && Open(job, lagging, plan, best.value)
      invariant forall j :: 0 <= j < k && Open(job, lagging, plan, j) ==>
                  best.Some? && !LessProgress(job, plan, job.carrying[j], job.carrying[best.value])
    {
      var i := job.carrying[k];
      if job.caps[i] <= 0 || (job.caps[i] < useful && i !in lagging) ||
         job.caps[i] <= plan[i] || plan[i] >= LeadBudget(job.length[i]) ||
         (bytes + FRAME_HEADER + 1 > RECORD_BUDGET && plan[i] == 0) {
        assert !Open(job, lagging, plan, k);
        continue;
      }
      assert Open(job, lagging, plan, k);
      if best.None? {
        best := Some(k);
      } else {
        var b := job.carrying[best.value];
        var less := LessBodyProgress(job, plan, i, b);
        if less {
          LeastSoFar(job, lagging, plan, best.value, k);
          best := Some(k);
        }
      }
    }
  }

  lemma LeastSoFar(job: Job, lagging: set<int>, plan: seq<int>, b: nat, k: nat)
    requires job.Valid() && WithinCaps(job, plan) && b < k < |job.carrying|
    requires LessProgress(job, plan, job.carrying[k], job.carrying[b])
    requires forall j :: 0 <= j < k && Open(job, lagging, plan, j) ==>
               !LessProgress(job, plan, job.carrying[j], job.carrying[b])
    ensures forall j :: 0 <= j < k && Open(job, lagging, plan, j) ==>
              !LessProgress(job, plan, job.carrying[j], job.carrying[k])
  {
    forall j | 0 <= j < k && Open(job, lagging, plan, j)
      ensures !LessProgress(job, plan, job.carrying[j], job.carrying[k])
    {
      var x, y, z := job.carrying[k], job.carrying[b], job.carrying[j];
      assert job.ValidStream(x) && job.ValidStream(y) && job.ValidStream(z);
      FractionsTransitive(job.sent[x] + plan[x], job.length[x], job.sent[y] + plan[y], job.length[y],
                          job.sent[z] + plan[z], job.length[z]);
    }
  }

  lemma Extend(job: Job, credit: int, lagging: set<int>, plan: seq<int>, k: nat, amount: int)
    requires job.Valid() && Useful(job, credit, lagging, plan)
    requires k < |job.carrying| && Open(job, lagging, plan, k) &&
             Bearable(job, credit - Payload(job, plan), plan, k, amount)
    requires SizeWith(job, plan, RecordBytes(job, plan), k, amount) <= RECORD_BUDGET
    ensures var grown := Enlarged(job, plan, k, amount);
            && Useful(job, credit, lagging, grown)
            && Payload(job, grown) == Payload(job, plan) + amount
            && RecordBytes(job, grown) == SizeWith(job, plan, RecordBytes(job, plan), k, amount)
  {
    AddByte(job, plan, k, amount);
  }

  /** The amount respects the cap, the lead and the credit left. */
  predicate Bearable(job: Job, left: int, plan: seq<int>, k: nat, amount: int)
    requires job.Valid() && |plan| == |job.length| && k < |job.carrying|
  {
    var i := job.carrying[k];
    0 < amount <= left && amount <= job.caps[i] - plan[i] && amount <= LeadBudget(job.length[i]) - plan[i]
  }

  lemma ChunkIsBearable(job: Job, left: int, plan: seq<int>, bytes: int, k: nat, amount: int)
    requires job.Valid() && |plan| == |job.length| && k < |job.carrying|
    requires amount == Chunk(job, left, plan, bytes, job.carrying[k]) && amount > 0
    ensures Bearable(job, left, plan, k, amount) && SizeWith(job, plan, bytes, k, amount) <= RECORD_BUDGET
  {
  }

  lemma SizeIsPositive(job: Job, plan: seq<int>)
    requires job.Valid() && WithinCaps(job, plan)
    ensures RecordBytes(job, plan) >= 0
  {
    FrameBytesMonotone(seq(|job.carrying|, _ => 0), Pick(job, plan));
    SumZero(AllFrameBytes(seq(|job.carrying|, _ => 0)));
  }

  predicate NothingOpen(job: Job, lagging: set<int>, plan: seq<int>)
    requires job.Valid() && |plan| == |job.length|
  {
    forall k :: 0 <= k < |job.carrying| ==> !Open(job, lagging, plan, k)
  }

  /** The chunk for the chosen stream: bounded by credit, cap, lead and record. */
  function Chunk(job: Job, left: int, plan: seq<int>, bytes: int, i: int): int
    requires job.Valid() && |plan| == |job.length| && 0 <= i < |plan|
  {
    var amount := Min(left, Min(job.caps[i] - plan[i], LeadBudget(job.length[i]) - plan[i]));
    Min(amount, RECORD_BUDGET - bytes - if plan[i] == 0 then FRAME_HEADER else 0)
  }

  /** What the spending loop keeps: a useful plan, its unspent credit and its size. */
  predicate Spending(job: Job, credit: int, lagging: set<int>, plan: seq<int>, left: int, bytes: int)
    requires job.Valid()
  {
    && Useful(job, credit, lagging, plan)
    && left == credit - Payload(job, plan) && bytes == RecordBytes(job, plan)
    && (if bytes == 0 then left == credit && forall i :: 0 <= i < |plan| ==> plan[i] == 0 else left < credit)
  }

  lemma StartSpending(job: Job, credit: int, lagging: set<int>, plan: seq<int>)
    requires job.Valid() && credit > 0 && |plan| == |job.length|
    requires forall i :: 0 <= i < |plan| ==> plan[i] == 0
    ensures Spending(job, credit, lagging, plan, credit, 0)
  {
    EmptyPlan(job, plan);
    forall k | 0 <= k < |job.carrying|
      ensures 0 <= plan[job.carrying[k]] <= job.caps[job.carrying[k]]
    {
      assert job.ValidStream(job.carrying[k]);
    }
  }

  lemma SpendChunk(job: Job, credit: int, lagging: set<int>, plan: seq<int>, left: int, bytes: int, k: nat, amount: int)
    requires job.Valid() && Spending(job, credit, lagging, plan, left, bytes)
    requires k < |job.carrying| && Open(job, lagging, plan, k)
    requires amount == Chunk(job, left, plan, bytes, job.carrying[k]) && amount > 0
    ensures Spending(job, credit, lagging, Enlarged(job, plan, k, amount), left - amount,
            SizeWith(job, plan, bytes, k, amount))
  {
    ChunkIsBearable(job, left, plan, bytes, k, amount);
    Extend(job, credit, lagging, plan, k, amount);
    SizeIsPositive(job, plan);
  }

  function Enlarged(job: Job, plan: seq<int>, k: nat, amount: int): seq<int>
    requires job.Valid() && |plan| == |job.length| && k < |job.carrying|
  {
    var i := job.carrying[k];
    plan[i := plan[i] + amount]
  }

  function SizeWith(job: Job, plan: seq<int>, bytes: int, k: nat, amount: int): int
    requires job.Valid() && |plan| == |job.length| && k < |job.carrying|
  {
    bytes + amount + if plan[job.carrying[k]] == 0 then FRAME_HEADER else 0
  }

  lemma FirstChunk(job: Job, credit: int, lagging: set<int>, plan: seq<int>, left: int, bytes: int, k: nat)
    requires job.Valid() && Spending(job, credit, lagging, plan, left, bytes) && left > 0
    requires k < |job.carrying| && Open(job, lagging, plan, k)
    ensures bytes == 0 ==> Chunk(job, left, plan, bytes, job.carrying[k]) > 0
  {
  }

  /** One round: the next chunk, or the end of the record. */
  method SpendOnce(job: Job, credit: int, lagging: set<int>, useful: int, plan: seq<int>, left: int, bytes: int)
    returns (amount: int, grown: seq<int>, size: int)
    requires job.Valid() && useful == Min(USEFUL_CAP, Longest(Pick(job, job.caps)))
    requires Spending(job, credit, lagging, plan, left, bytes) && left > 0
    ensures 0 <= amount <= left && Spending(job, credit, lagging, grown, left - amount, size)
    ensures amount == 0 && size == 0 ==> NothingOpen(job, lagging, grown)
  {
    var best := PickOpen(job, lagging, useful, plan, bytes);
    if best.None? {
      return 0, plan, bytes;
    }
    amount, grown, size := SpendOn(job, credit, lagging, plan, left, bytes, best.value);
  }

  /** A chunk on the chosen stream, unless the record has no room for one. */
  method SpendOn(job: Job, credit: int, lagging: set<int>, plan: seq<int>, left: int, bytes: int, k: nat)
    returns (amount: int, grown: seq<int>, size: int)
    requires job.Valid() && Spending(job, credit, lagging, plan, left, bytes) && left > 0
    requires k < |job.carrying| && Open(job, lagging, plan, k)
    ensures 0 <= amount <= left && Spending(job, credit, lagging, grown, left - amount, size)
    ensures amount == 0 ==> size != 0
  {
    var i := job.carrying[k];
    var chunk := Chunk(job, left, plan, bytes, i);
    if chunk <= 0 {
      FirstChunk(job, credit, lagging, plan, left, bytes, k);
      return 0, plan, bytes;
    }
    SpendChunk(job, credit, lagging, plan, left, bytes, k, chunk);
    return chunk, Enlarged(job, plan, k, chunk), SizeWith(job, plan, bytes, k, chunk);
  }

  method SpendCredit(job: Job, credit: int, lagging: set<int>) returns (plan: seq<int>, left: int, bytes: int)
    requires job.Valid() && credit > 0
    ensures Spending(job, credit, lagging, plan, left, bytes)
    ensures bytes == 0 ==> NothingOpen(job, lagging, plan)
  {
    var maxCap := MaxCap(job);
    var useful := Min(USEFUL_CAP, maxCap);
    plan, left, bytes := seq(|job.length|, _ => 0), credit, 0;
    StartSpending(job, credit, lagging, plan);
    while left > 0
      invariant Spending(job, credit, lagging, plan, left, bytes)
    {
      var amount;
      amount, plan, bytes := SpendOnce(job, credit, lagging, useful, plan, left, bytes);
      left := left - amount;
      if amount == 0 {
        break;
      }
    }
  }

  /** Before the first chunk the stream with the largest cap is always open. */
  lemma SomethingOpen(job: Job, credit: int, lagging: set<int>, plan: seq<int>)
    requires job.Valid() && |plan| == |job.length| && CanSend(job, credit)
    requires forall i :: 0 <= i < |plan| ==> plan[i] == 0
    ensures !NothingOpen(job, lagging, plan)
  {
    EmptyPlan(job, plan);
    var caps := Pick(job, job.caps);
    var k :| 0 <= k < |job.carrying| && job.caps[job.carrying[k]] > 0;
    assert caps[k] > 0;
    var m := LongestIsAttained(caps);
    assert Open(job, lagging, plan, m);
  }

  lemma {:induction false} LongestIsAttained(s: seq<int>) returns (k: nat)
    requires Longest(s) > 0
    ensures k < |s| && s[k] == Longest(s)
  {
    k := |s| - 1;
    if s[k] < Longest(s) {
      k := LongestIsAttained(s[..|s| - 1]);
    }
  }

  /** Plans useful chunks. Which streams lag is decided by comparing floating-point
      progress; here it is an arbitrary input. */
  method PlanScarce(job: Job, credit: int, lagging: set<int>) returns (plan: Option<seq<int>>)
    requires job.Valid()
    ensures plan.Some? ==> Useful(job, credit, lagging, plan.value) && Payload(job, plan.value) > 0
    ensures plan.Some? <==> CanSend(job, credit)
  {
    if credit <= 0 {
      return None;
    }
    var chunks, left, bytes := SpendCredit(job, credit, lagging);
    if bytes == 0 {
      if CanSend(job, credit) {
        SomethingOpen(job, credit, lagging, chunks);
      }
      return None;
    }
    ghost var k := SomePositive(Pick(job, chunks));
    assert job.caps[job.carrying[k]] > 0;
    return Some(chunks);
  }

  /** The record actually sent: the greedy plan, or the scarce substitute when the
      greedy record is small and the substitute carries at least as many bytes. */
  method ChooseRecord(job: Job, credit: int, lagging: set<int>, greedy: seq<int>) returns (plan: seq<int>)
    requires job.Valid() && Admissible(job, credit, greedy) && Payload(job, greedy) > 0
    ensures Admissible(job, credit, plan) && Payload(job, plan) >= Payload(job, greedy)
    ensures plan == greedy ||
            (RecordBytes(job, greedy) < SCARCE_RECORD && Useful(job, credit, lagging, plan) &&
             (Payload(job, plan) == Payload(job, greedy) ==> RecordBytes(job, plan) <= RecordBytes(job, greedy)))
  {
    plan := greedy;
    var payload, bytes := Totals(job, greedy);
    if bytes < SCARCE_RECORD {
      var scarce := PlanScarce(job, credit, lagging);
      if scarce.Some? {
        var scarcePayload, scarceBytes := Totals(job, scarce.value);
        if scarcePayload > payload || (scarcePayload == payload && scarceBytes <= bytes) {
          plan := scarce.value;
        }
      }
    }
  }

  method Totals(job: Job, plan: seq<int>) returns (payload: int, bytes: int)
    requires job.Valid() && |plan| == |job.length| && WithinCaps(job, plan)
    ensures payload == Payload(job, plan) && bytes == RecordBytes(job, plan)
  {
    payload, bytes := 0, 0;
    ghost var amounts := Pick(job, plan);
    for k := 0 to |job.carrying|
      invariant payload == Sum(amounts[..k]) && bytes == Sum(AllFrameBytes(amounts)[..k])
    {
      SumPrefix(amounts, k);
      SumPrefix(AllFrameBytes(amounts), k);
      var amount := plan[job.carrying[k]];
      if amount > 0 {
        bytes := bytes + FRAME_HEADER + amount;
        payload := payload + amount;
      }
    }
    SumAll(amounts);
    SumAll(AllFrameBytes(amounts));
  }
}
