/** The common-progress planner of one intermediate DATA record, with its 128-bit
    binary search. */
module Planner {
  import opened Arithmetic
  import opened Sequences
  import opened FlowControl

  const RECORD_BUDGET := 0x4000
  const FRAME_HEADER := 9
  const SCARCE_RECORD := 0x2000
  const TWO_63 := 0x8000_0000_0000_0000

  // ------------------------------------------------------- 128-bit arithmetic

  /** q is the floor of n / d exactly when q*d <= n < (q+1)*d. */
  lemma FloorIs(n: int, d: int, q: int)
    requires d > 0 && q * d <= n < (q + 1) * d
    ensures n / d == q
  {
    DivMod(n, d);
    var r := n / d;
    if r < q {
      MulMonotone(r + 1, q, d);
    } else if r > q {
      MulMonotone(q + 1, r, d);
    }
  }

  function Mul64(x: int, y: int): (r: (int, int))
    requires 0 <= x < WORDS && 0 <= y < WORDS
    ensures r.0 * WORDS + r.1 == x * y && 0 <= r.1 < WORDS && 0 <= r.0
  {
    assert x * y >= 0;
    (x * y / WORDS, x * y % WORDS)
  }

  /** Division of a 128-bit value; the machine operation faults unless hi < y. */
  function Div64(hi: int, lo: int, y: int): (r: (int, int))
    requires 0 <= lo < WORDS && 0 <= hi < y
    ensures r.0 * y + r.1 == hi * WORDS + lo && 0 <= r.1 < y && 0 <= r.0 < WORDS
  {
    var n := hi * WORDS + lo;
    DivMod(n, y);
    assert n < y * WORDS by {
      assert (hi + 1) * WORDS <= y * WORDS;
    }
    assert 0 <= n / y < WORDS by {
      if n / y >= WORDS {
        MulMonotone(WORDS, n / y, y);
      }
    }
    (n / y, n % y)
  }

  function BitLen(n: nat): (k: nat) {
    if n == 0 then 0 else BitLen(n / 2) + 1
  }

  function Scale(longest: nat): (s: int)
    ensures 1 <= s <= 0x1_0000_0000_0000
  {
    var k := Min(BitLen(longest), 48);
    Pow2Monotone(k, 48);
    Pow2Of48();
    Pow2(k)
  }

  // ------------------------------------------------------------ plans and jobs

  /** Body lengths, bytes already sent and bytes allowed now, per stream; carrying
      lists the streams with a body. */
  datatype Job = Job(length: seq<int>, sent: seq<int>, carrying: seq<int>, caps: seq<int>) {
    predicate ValidStream(i: int)
      requires 0 <= i < |length| == |sent| == |caps|
    {
      && 0 < length[i] < TWO_63
      && 0 <= sent[i] <= length[i]
      && 0 <= caps[i] <= length[i] - sent[i]
    }

    predicate Valid() {
      && |sent| == |caps| == |length|
      && (forall k :: 0 <= k < |carrying| ==> 0 <= carrying[k] < |length| && ValidStream(carrying[k]))
      && (forall j, k :: 0 <= j < k < |carrying| ==> carrying[j] != carrying[k])
    }
  }

  /** The part of a plan that belongs to the carrying streams, in their order. */
  function Pick(job: Job, plan: seq<int>): (r: seq<int>)
    requires job.Valid() && |plan| == |job.length|
  {
    seq(|job.carrying|, k requires 0 <= k < |job.carrying| => plan[job.carrying[k]])
  }

  /** Bytes of one DATA frame; a stream without payload writes none. */
  function FrameBytes(amount: int): int { if amount > 0 then FRAME_HEADER + amount else 0 }

  function AllFrameBytes(amounts: seq<int>): (r: seq<int>) {
    seq(|amounts|, k requires 0 <= k < |amounts| => FrameBytes(amounts[k]))
  }

  function Payload(job: Job, plan: seq<int>): int
    requires job.Valid() && |plan| == |job.length|
  {
    Sum(Pick(job, plan))
  }

  function RecordBytes(job: Job, plan: seq<int>): int
    requires job.Valid() && |plan| == |job.length|
  {
    Sum(AllFrameBytes(Pick(job, plan)))
  }

  /** A plan that can be sent now: within every cap, the connection credit and one
      TLS record, and silent on streams without a body. */
  predicate Admissible(job: Job, credit: int, plan: seq<int>)
    requires job.Valid()
  {
    Within(job, plan) && Payload(job, plan) <= credit && RecordBytes(job, plan) <= RECORD_BUDGET
  }

  /** The plan serves carrying streams only, each within its cap. */
  predicate Within(job: Job, plan: seq<int>)
    requires job.Valid()
  {
    && |plan| == |job.length|
    && (forall k :: 0 <= k < |job.carrying| ==> 0 <= plan[job.carrying[k]] <= job.caps[job.carrying[k]])
    && (forall i :: 0 <= i < |plan| && i !in job.carrying ==> plan[i] == 0)
  }

  /** One more byte at carrying position k respects its cap and the record. */
  predicate Room(job: Job, plan: seq<int>, k: nat)
    requires job.Valid() && |plan| == |job.length| && k < |job.carrying|
  {
    var i := job.carrying[k];
    && plan[i] < job.caps[i]
    && RecordBytes(job, plan) + (if plan[i] == 0 then FRAME_HEADER + 1 else 1) <= RECORD_BUDGET
  }

  /** Work conservation: no further byte can be added anywhere. */
  predicate Saturated(job: Job, credit: int, plan: seq<int>)
    requires job.Valid() && |plan| == |job.length|
  {
    Payload(job, plan) >= credit || forall k :: 0 <= k < |job.carrying| ==> !Room(job, plan, k)
  }

  lemma AddByte(job: Job, plan: seq<int>, k: nat, amount: int)
    requires job.Valid() && |plan| == |job.length| && k < |job.carrying| && amount > 0
    requires plan[job.carrying[k]] >= 0
    ensures var i := job.carrying[k];
            var grown := plan[i := plan[i] + amount];
            && Pick(job, grown) == Pick(job, plan)[k := plan[i] + amount]
            && Payload(job, grown) == Payload(job, plan) + amount
            && RecordBytes(job, grown) == RecordBytes(job, plan) + amount + (if plan[i] == 0 then FRAME_HEADER else 0)
  {
    var i := job.carrying[k];
    PickUpdate(job, plan, k, plan[i] + amount);
    SumUpdate(Pick(job, plan), k, plan[i] + amount);
    BytesUpdate(Pick(job, plan), k, plan[i] + amount);
  }

  lemma PickUpdate(job: Job, plan: seq<int>, k: nat, v: int)
    requires job.Valid() && |plan| == |job.length| && k < |job.carrying|
    ensures Pick(job, plan[job.carrying[k] := v]) == Pick(job, plan)[k := v]
  {
  }

  lemma BytesUpdate(s: seq<int>, k: nat, v: int)
    requires k < |s|
    ensures Sum(AllFrameBytes(s[k := v])) == Sum(AllFrameBytes(s)) - FrameBytes(s[k]) + FrameBytes(v)
  {
    assert AllFrameBytes(s[k := v]) == AllFrameBytes(s)[k := FrameBytes(v)];
    SumUpdate(AllFrameBytes(s), k, FrameBytes(v));
  }

  // ---------------------------------------------------------- common progress

  function Longest(lengths: seq<int>): (m: int)
    ensures m >= 0
    ensures forall k :: 0 <= k < |lengths| ==> lengths[k] <= m
  {
    if lengths == [] then 0 else Max(Longest(lengths[..|lengths| - 1]), lengths[|lengths| - 1])
  }

  function ProgressScale(job: Job): (s: int)
    requires job.Valid()
    ensures 1 <= s <= 0x1_0000_0000_0000
  {
    Scale(Longest(Pick(job, job.length)))
  }

  /** What stream i must still send to reach progress p of scale. */
  function Wanted(job: Job, scale: int, p: int, i: int): int
    requires job.Valid() && scale > 0 && 0 <= i < |job.length|
  {
    Min(job.caps[i], Max(0, p * job.length[i] / scale - job.sent[i]))
  }

  function Level(job: Job, p: int): (plan: seq<int>)
    requires job.Valid()
  {
    var scale := ProgressScale(job);
    seq(|job.length|, i requires 0 <= i < |job.length| =>
        if i in job.carrying then Wanted(job, scale, p, i) else 0)
  }

  predicate Fits(job: Job, credit: int, p: int)
    requires job.Valid()
  {
    Payload(job, Level(job, p)) <= credit && RecordBytes(job, Level(job, p)) <= RECORD_BUDGET
  }

  /** p is the greatest common progress fraction that fits credit and record. */
  predicate GreatestFit(job: Job, credit: int, p: int)
    requires job.Valid()
  {
    && 0 <= p <= ProgressScale(job)
    && Fits(job, credit, p)
    && forall q :: p < q <= ProgressScale(job) ==> !Fits(job, credit, q)
  }

  /** The shortcut: a stream contributes nothing until progress reaches the
      ceiling of (sent+1)*scale/length. */
  lemma FirstProgressIsExact(length: int, sent: int, scale: int, p: int, q: int, rem: int)
    requires 0 <= sent < length && scale > 0
    requires q * length + rem == (sent + 1) * scale && 0 <= rem < length
    ensures p < q + (if rem == 0 then 0 else 1) <==> p * length / scale <= sent
  {
    var first := q + if rem == 0 then 0 else 1;
    DivMod(p * length, scale);
    var floor := p * length / scale;
    if p < first {
      // p*length < (sent+1)*scale, so its floor is at most sent.
      MulMonotone(p, first - 1, length);
      if floor > sent {
        MulMonotone(sent + 1, floor, scale);
      }
    } else {
      MulMonotone(first, p, length);
      if floor <= sent {
        MulMonotone(floor + 1, sent + 1, scale);
      }
    }
  }

  lemma WantedMonotone(job: Job, scale: int, p: int, q: int, i: int)
    requires job.Valid() && scale > 0 && p <= q && 0 <= i < |job.length| && job.length[i] >= 0
    ensures Wanted(job, scale, p, i) <= Wanted(job, scale, q, i)
  {
    MulMonotone(p, q, job.length[i]);
    var a, b := p * job.length[i], q * job.length[i];
    DivMod(a, scale);
    DivMod(b, scale);
    if a / scale > b / scale {
      MulMonotone(b / scale + 1, a / scale, scale);
    }
  }

  lemma LevelMonotone(job: Job, p: int, q: int, k: nat)
    requires job.Valid() && p <= q && k < |job.carrying|
    ensures Pick(job, Level(job, p))[k] <= Pick(job, Level(job, q))[k]
  {
    WantedMonotone(job, ProgressScale(job), p, q, job.carrying[k]);
  }

  lemma FrameBytesMonotone(a: seq<int>, b: seq<int>)
    requires |a| == |b| && forall k :: 0 <= k < |a| ==> a[k] <= b[k]
    ensures Sum(AllFrameBytes(a)) <= Sum(AllFrameBytes(b))
  {
    SumMonotone(AllFrameBytes(a), AllFrameBytes(b));
  }

  lemma FitsDownwards(job: Job, credit: int, p: int, q: int)
    requires job.Valid() && p <= q && Fits(job, credit, q)
    ensures Fits(job, credit, p)
  {
    var a, b := Pick(job, Level(job, p)), Pick(job, Level(job, q));
    assert forall k :: 0 <= k < |a| ==> a[k] <= b[k] by {
      forall k | 0 <= k < |a|
        ensures a[k] <= b[k]
      {
        LevelMonotone(job, p, q, k);
      }
    }
    SumMonotone(a, b);
    FrameBytesMonotone(a, b);
  }

  lemma WantedAtZero(job: Job, scale: int, i: int)
    requires job.Valid() && scale > 0 && 0 <= i < |job.length| && job.ValidStream(i)
    ensures Wanted(job, scale, 0, i) == 0
  {
    assert 0 * job.length[i] == 0;
    FloorIs(0, scale, 0);
  }

  lemma NothingAtZero(job: Job)
    requires job.Valid()
    ensures Payload(job, Level(job, 0)) == 0 && RecordBytes(job, Level(job, 0)) == 0
  {
    var a := Pick(job, Level(job, 0));
    forall k | 0 <= k < |a|
      ensures a[k] == 0
    {
      WantedAtZero(job, ProgressScale(job), job.carrying[k]);
    }
    SumZero(a);
    SumZero(AllFrameBytes(a));
  }

  /** The measuring loop: totals of the plan for progress p. Streams below their
      first useful progress are skipped without a division. */
  method Measure(job: Job, scale: int, first: seq<int>, p: int)
    returns (payload: int, bytes: int, plan: seq<int>)
    requires job.Valid() && scale == ProgressScale(job) && 0 <= p <= scale
    requires |first| == |job.length| && FirstIsCeiling(job, scale, first)
    ensures plan == Level(job, p)
    ensures payload == Payload(job, plan) && bytes == RecordBytes(job, plan)
  {
    plan := seq(|job.length|, _ => 0);
    payload, bytes := 0, 0;
    EmptyPlan(job, plan);
    ghost var target := Level(job, p);
    for k := 0 to |job.carrying|
      invariant Measured(job, target, plan, k, payload, bytes)
    {
      var i := job.carrying[k];
      var amount := Contribution(job, scale, first, p, i);
      WriteNext(job, target, plan, k, payload, bytes);
      if amount != 0 {
        payload := payload + amount;
        bytes := bytes + FRAME_HEADER + amount;
        plan := plan[i := amount];
      }
    }
    AllWritten(job, target, plan);
  }

  /** The totals of the plan so far. */
  predicate Measured(job: Job, target: seq<int>, plan: seq<int>, k: nat, payload: int, bytes: int)
    requires job.Valid() && k <= |job.carrying|
  {
    Written(job, target, plan, k) && payload == Payload(job, plan) && bytes == RecordBytes(job, plan)
  }

  lemma AllWritten(job: Job, target: seq<int>, plan: seq<int>)
    requires job.Valid() && Written(job, target, plan, |job.carrying|)
    requires forall i :: 0 <= i < |target| && i !in job.carrying ==> target[i] == 0
    ensures plan == target
  {
    forall i | 0 <= i < |plan|
      ensures plan[i] == target[i]
    {
      if i in job.carrying {
        var j :| 0 <= j < |job.carrying| && job.carrying[j] == i;
      }
    }
  }

  /** plan agrees with target on the first k carrying streams and is zero elsewhere. */
  predicate Written(job: Job, target: seq<int>, plan: seq<int>, k: nat)
    requires job.Valid() && k <= |job.carrying|
  {
    && |plan| == |target| == |job.length|
    && (forall j :: 0 <= j < k ==> plan[job.carrying[j]] == target[job.carrying[j]])
    && (forall j :: k <= j < |job.carrying| ==> plan[job.carrying[j]] == 0)
    && (forall i :: 0 <= i < |plan| && i !in job.carrying ==> plan[i] == 0)
  }

  lemma WriteNext(job: Job, target: seq<int>, plan: seq<int>, k: nat, payload: int, bytes: int)
    requires job.Valid() && k < |job.carrying| && Measured(job, target, plan, k, payload, bytes)
    requires target[job.carrying[k]] >= 0
    ensures var i := job.carrying[k];
            if target[i] == 0 then Measured(job, target, plan, k + 1, payload, bytes)
            else
              Measured(job, target, plan[i := target[i]], k + 1, payload + target[i], bytes + FRAME_HEADER + target[i])
  {
    var i := job.carrying[k];
    if target[i] > 0 {
      AddByte(job, plan, k, target[i]);
      WriteOne(job, target, plan, k);
    }
  }

  lemma WriteOne(job: Job, target: seq<int>, plan: seq<int>, k: nat)
    requires job.Valid() && k < |job.carrying| && Written(job, target, plan, k)
    ensures Written(job, target, plan[job.carrying[k] := target[job.carrying[k]]], k + 1)
  {
  }

  lemma EmptyPlan(job: Job, plan: seq<int>)
    requires job.Valid() && |plan| == |job.length|
    requires forall i :: 0 <= i < |plan| ==> plan[i] == 0
    ensures Payload(job, plan) == RecordBytes(job, plan) == 0
  {
    SumZero(Pick(job, plan));
    SumZero(AllFrameBytes(Pick(job, plan)));
  }

  predicate FirstIsCeiling(job: Job, scale: int, first: seq<int>)
    requires job.Valid() && |first| == |job.length|
  {
    forall k :: 0 <= k < |job.carrying| && job.caps[job.carrying[k]] > 0 ==>
      IsCeiling((job.sent[job.carrying[k]] + 1) * scale, job.length[job.carrying[k]], first[job.carrying[k]])
  }

  predicate IsCeiling(n: int, d: int, c: int) {
    (c - 1) * d < n <= c * d
  }

  method Contribution(job: Job, scale: int, first: seq<int>, p: int, i: int) returns (amount: int)
    requires job.Valid() && scale == ProgressScale(job) && 0 <= p <= scale
    requires |first| == |job.length| && i in job.carrying && FirstIsCeiling(job, scale, first)
    ensures amount == Wanted(job, scale, p, i)
    ensures 0 <= amount <= job.caps[i]
  {
    assert job.ValidStream(i);
    if job.caps[i] == 0 {
      return 0;
    }
    if p < first[i] {
      CeilingSkips(job.length[i], job.sent[i], scale, p, first[i]);
      return 0;
    }
    var (hi, lo) := Mul64(p, job.length[i]);
    NoOverflow(p, job.length[i], scale, hi, lo);
    var (target, rem) := Div64(hi, lo, scale);
    FloorIs(p * job.length[i], scale, target);
    return Min(job.caps[i], Max(0, target - job.sent[i]));
  }

  lemma CeilingSkips(length: int, sent: int, scale: int, p: int, first: int)
    requires 0 <= sent < length && scale > 0 && IsCeiling((sent + 1) * scale, length, first)
    ensures p < first <==> p * length / scale <= sent
  {
    var n := (sent + 1) * scale;
    DivMod(n, length);
    var q, rem := n / length, n % length;
    assert first == q + if rem == 0 then 0 else 1 by {
      var c := q + if rem == 0 then 0 else 1;
      if first < c {
        MulMonotone(first, c - 1, length);
      } else if first > c {
        MulMonotone(c, first - 1, length);
      }
    }
    FirstProgressIsExact(length, sent, scale, p, q, rem);
  }

  /** The quotient p*length/scale needs no more than 64 bits. */
  lemma NoOverflow(p: int, length: int, scale: int, hi: int, lo: int)
    requires 0 <= p <= scale && 0 < length < TWO_63 && scale >= 1
    requires hi * WORDS + lo == p * length && 0 <= lo < WORDS
    ensures hi < scale
  {
    MulMonotone(p, scale, length);
    assert scale * length < scale * WORDS;
    if hi >= scale {
      MulMonotone(scale, hi, WORDS);
    }
  }

  /** Fills the scratch with each stream's first useful progress. Entries of streams
      that cannot send now keep whatever the previous call left there. */
  method FirstProgress(job: Job, scratch: array<int>)
    requires job.Valid() && scratch.Length == |job.length|
    modifies scratch
    ensures FirstIsCeiling(job, ProgressScale(job), scratch[..])
  {
    var scale := ProgressScale(job);
    for k := 0 to |job.carrying|
      invariant forall j :: 0 <= j < k && job.caps[job.carrying[j]] > 0 ==>
                  IsCeiling((job.sent[job.carrying[j]] + 1) * scale, job.length[job.carrying[j]],
                  scratch[job.carrying[j]])
    {
      var i := job.carrying[k];
      assert job.ValidStream(i);
      if job.caps[i] != 0 {
        scratch[i] := CeilingQuotient(job.sent[i] + 1, scale, job.length[i]);
      }
    }
  }

  function CeilingQuotient(next: int, scale: int, length: int): (c: int)
    requires 0 < next <= length < TWO_63 && 1 <= scale <= 0x1_0000_0000_0000
    ensures IsCeiling(next * scale, length, c)
  {
    var (hi, lo) := Mul64(next, scale);
    NoOverflow(next, scale, length, hi, lo);
    var (q, rem) := Div64(hi, lo, length);
    if rem != 0 then q + 1 else q
  }

  /** Binary search for the common progress. */
  method SearchProgress(job: Job, credit: int, first: seq<int>) returns (low: int)
    requires job.Valid() && |first| == |job.length| && FirstIsCeiling(job, ProgressScale(job), first)
    ensures 0 <= low <= ProgressScale(job)
    ensures credit >= 0 ==> GreatestFit(job, credit, low)
    ensures credit < 0 ==> low == 0
  {
    var scale := ProgressScale(job);
    low := 0;
    var high := scale;
    NothingAtZero(job);
    while low < high
      invariant 0 <= low <= high <= scale
      invariant credit >= 0 ==> Fits(job, credit, low)
      invariant forall q :: high < q <= scale ==> !Fits(job, credit, q)
      invariant credit < 0 ==> low == 0
    {
      var mid := low + (high - low + 1) / 2;
      var payload, bytes, _ := Measure(job, scale, first, mid);
      if payload <= credit && bytes <= RECORD_BUDGET {
        if credit < 0 {
          FitsDownwards(job, credit, 0, mid);
        }
        low := mid;
      } else {
        forall q | mid <= q <= scale
          ensures !Fits(job, credit, q)
        {
          if Fits(job, credit, q) {
            FitsDownwards(job, credit, mid, q);
          }
        }
        high := mid - 1;
      }
    }
  }

  // ----------------------------------------------------------- residual bytes

  /** Stream a, after this plan, has sent a smaller fraction of its body than b. */
  predicate LessProgress(job: Job, plan: seq<int>, a: int, b: int)
    requires job.Valid() && |plan| == |job.length| && 0 <= a < |plan| && 0 <= b < |plan|
  {
    (job.sent[a] + plan[a]) * job.length[b] < (job.sent[b] + plan[b]) * job.length[a]
  }

  predicate WithinCaps(job: Job, plan: seq<int>)
    requires job.Valid()
  {
    && |plan| == |job.length|
    && forall k :: 0 <= k < |job.carrying| ==> 0 <= plan[job.carrying[k]] <= job.caps[job.carrying[k]]
  }

  method LessBodyProgress(job: Job, plan: seq<int>, a: int, b: int) returns (less: bool)
    requires job.Valid() && WithinCaps(job, plan) && a in job.carrying && b in job.carrying
    ensures less == LessProgress(job, plan, a, b)
  {
    assert job.ValidStream(a) && job.ValidStream(b);
    var (aHi, aLo) := Mul64(job.sent[a] + plan[a], job.length[b]);
    var (bHi, bLo) := Mul64(job.sent[b] + plan[b], job.length[a]);
    return aHi < bHi || (aHi == bHi && aLo < bLo);
  }

  /** The first carrying position below k with least progress among those with room. */
  function Neediest(job: Job, plan: seq<int>, k: nat): (best: Option<nat>)
    requires job.Valid() && |plan| == |job.length| && k <= |job.carrying|
    ensures best.Some? ==> best.value < k
  {
    if k == 0 then None
    else
      var prev := Neediest(job, plan, k - 1);
      if !Room(job, plan, k - 1) then prev
      else if prev.None? || LessProgress(job, plan, job.carrying[k - 1], job.carrying[prev.value]) then Some(k - 1)
      else prev
  }

  lemma FractionsTransitive(x: int, a: int, y: int, b: int, z: int, c: int)
    requires a > 0 && b > 0 && c > 0
    requires x * b <= y * a && y * c <= z * b
    ensures x * c <= z * a
    ensures x * b < y * a || y * c < z * b ==> x * c < z * a
  {
    assert x * b * c <= y * a * c == y * c * a <= z * b * a by {
      MulMonotone(x * b, y * a, c);
      MulMonotone(y * c, z * b, a);
    }
    assert x * c * b == x * b * c && z * a * b == z * b * a;
    if x * c > z * a {
      MulMonotone(z * a + 1, x * c, b);
    }
    if x * b < y * a || y * c < z * b {
      FractionsStrict(x, a, y, b, z, c);
    }
  }

  lemma FractionsStrict(x: int, a: int, y: int, b: int, z: int, c: int)
    requires a > 0 && b > 0 && c > 0 && x * b <= y * a && y * c <= z * b
    requires x * b < y * a || y * c < z * b
    ensures x * c != z * a
  {
    ScaleStrictly(x * b, y * a, c);
    ScaleStrictly(y * c, z * b, a);
    assert x * b * c == x * c * b && y * a * c == y * c * a && z * b * a == z * a * b;
  }

  lemma ScaleStrictly(u: int, v: int, c: int)
    requires u <= v && c > 0
    ensures u * c <= v * c && (u < v ==> u * c < v * c)
  {
    if u < v {
      MulMonotone(u + 1, v, c);
    }
  }

  /** The selection is a least-progressed stream with room, the earliest on ties,
      and fails only when no stream has room. */
  lemma {:induction false} NeediestIsLeast(job: Job, plan: seq<int>, k: nat, j: nat)
    requires job.Valid() && WithinCaps(job, plan) && j < k <= |job.carrying| && Room(job, plan, j)
    ensures var best := Neediest(job, plan, k);
            && best.Some? && Room(job, plan, best.value)
            && !LessProgress(job, plan, job.carrying[j], job.carrying[best.value])
            && (j < best.value ==> LessProgress(job, plan, job.carrying[best.value], job.carrying[j]))
  {
    var prev := Neediest(job, plan, k - 1);
    if j < k - 1 {
      NeediestIsLeast(job, plan, k - 1, j);
      var a, b, c := job.carrying[j], job.carrying[prev.value], job.carrying[k - 1];
      assert job.ValidStream(a) && job.ValidStream(b) && job.ValidStream(c);
      if Room(job, plan, k - 1) && LessProgress(job, plan, c, b) {
        FractionsTransitive(job.sent[c] + plan[c], job.length[c], job.sent[b] + plan[b], job.length[b],
                            job.sent[a] + plan[a], job.length[a]);
      }
    } else if prev.Some? {
      RoomOfNeediest(job, plan, k - 1);
    }
  }

  lemma {:induction false} RoomOfNeediest(job: Job, plan: seq<int>, k: nat)
    requires job.Valid() && |plan| == |job.length| && k <= |job.carrying|
    ensures Neediest(job, plan, k).Some? ==> Room(job, plan, Neediest(job, plan, k).value)
  {
    if k > 0 {
      RoomOfNeediest(job, plan, k - 1);
    }
  }

  function Grown(job: Job, plan: seq<int>, k: nat): (r: seq<int>)
    requires job.Valid() && |plan| == |job.length| && k < |job.carrying|
  {
    plan[job.carrying[k] := plan[job.carrying[k]] + 1]
  }

  lemma GrowOne(job: Job, credit: int, plan: seq<int>, k: nat)
    requires job.Valid() && Admissible(job, credit, plan) && Payload(job, plan) < credit
    requires k < |job.carrying| && Room(job, plan, k)
    ensures Admissible(job, credit, Grown(job, plan, k))
    ensures Payload(job, Grown(job, plan, k)) == Payload(job, plan) + 1
    ensures RecordBytes(job, Grown(job, plan, k)) ==
            RecordBytes(job, plan) + (if plan[job.carrying[k]] == 0 then FRAME_HEADER + 1 else 1)
  {
    AddByte(job, plan, k, 1);
    GrownWithin(job, plan, k);
  }

  lemma GrownWithin(job: Job, plan: seq<int>, k: nat)
    requires job.Valid() && Within(job, plan) && k < |job.carrying| && plan[job.carrying[k]] < job.caps[job.carrying[k]]
    ensures Within(job, Grown(job, plan, k))
  {
  }

  /** Spends the slack left by the common progress byte by byte, always on the
      neediest stream with room. */
  function Fill(job: Job, credit: int, plan: seq<int>): (r: seq<int>)
    requires job.Valid() && Admissible(job, credit, plan)
    ensures Admissible(job, credit, r) && Saturated(job, credit, r)
    ensures forall i :: 0 <= i < |plan| ==> plan[i] <= r[i]
    decreases credit - Payload(job, plan)
  {
    var n := |job.carrying|;
    var best := Neediest(job, plan, n);
    if Payload(job, plan) >= credit then plan
    else if best.None? then
      assert Saturated(job, credit, plan) by { NoNeedyNoRoom(job, plan); }
      plan
    else
      RoomOfNeediest(job, plan, n);
      GrowOne(job, credit, plan, best.value);
      Fill(job, credit, Grown(job, plan, best.value))
  }

  lemma NoNeedyNoRoom(job: Job, plan: seq<int>)
    requires job.Valid() && WithinCaps(job, plan) && Neediest(job, plan, |job.carrying|).None?
    ensures forall k :: 0 <= k < |job.carrying| ==> !Room(job, plan, k)
  {
    forall k | 0 <= k < |job.carrying|
      ensures !Room(job, plan, k)
    {
      if Room(job, plan, k) {
        NeediestIsLeast(job, plan, |job.carrying|, k);
      }
    }
  }

  // -------------------------------------------------------- the greedy planner

  /** Scan for the neediest stream with room, given the current record size. */
  method PickNeediest(job: Job, plan: seq<int>, bytes: int) returns (best: Option<nat>)
    requires job.Valid() && WithinCaps(job, plan) && bytes == RecordBytes(job, plan)
    ensures best == Neediest(job, plan, |job.carrying|)
  {
    best := None;
    for k := 0 to |job.carrying|
      invariant best == Neediest(job, plan, k)
    {
      var i := job.carrying[k];
      var cost := 1;
      if plan[i] == 0 {
        cost := cost + FRAME_HEADER;
      }
      if plan[i] < job.caps[i] && bytes + cost <= RECORD_BUDGET {
        if best.None? {
          best := Some(k);
        } else {
          var less := LessBodyProgress(job, plan, i, job.carrying[best.value]);
          if less {
            best := Some(k);
          }
        }
      }
    }
  }

  lemma FillStep(job: Job, credit: int, plan: seq<int>, best: nat)
    requires job.Valid() && Admissible(job, credit, plan) && Payload(job, plan) < credit
    requires Neediest(job, plan, |job.carrying|) == Some(best)
    ensures Room(job, plan, best) && Admissible(job, credit, Grown(job, plan, best))
    ensures Fill(job, credit, Grown(job, plan, best)) == Fill(job, credit, plan)
    ensures Payload(job, Grown(job, plan, best)) == Payload(job, plan) + 1
    ensures RecordBytes(job, Grown(job, plan, best)) ==
            RecordBytes(job, plan) + (if plan[job.carrying[best]] == 0 then FRAME_HEADER + 1 else 1)
  {
    RoomOfNeediest(job, plan, |job.carrying|);
    GrowOne(job, credit, plan, best);
  }

  method SpendSlack(job: Job, credit: int, start: seq<int>, paid: int, used: int)
    returns (plan: seq<int>, payload: int)
    requires job.Valid() && |start| == |job.length|
    requires paid == Payload(job, start) >= 0 && used == RecordBytes(job, start)
    requires credit >= 0 ==> Admissible(job, credit, start)
    ensures |plan| == |job.length| && payload == Payload(job, plan)
    ensures plan == if credit >= 0 then Fill(job, credit, start) else start
  {
    plan, payload := start, paid;
    var bytes := used;
    while payload < credit
      invariant |plan| == |job.length| && payload == Payload(job, plan) && bytes == RecordBytes(job, plan)
      invariant credit < 0 ==> plan == start && payload >= credit
      invariant credit >= 0 ==> Admissible(job, credit, plan) && Fill(job, credit, plan) == Fill(job, credit, start)
    {
      var best := PickNeediest(job, plan, bytes);
      if best.None? {
        break;
      }
      var i := job.carrying[best.value];
      FillStep(job, credit, plan, best.value);
      if plan[i] == 0 {
        bytes := bytes + FRAME_HEADER;
      }
      plan := Grown(job, plan, best.value);
      payload := payload + 1;
      bytes := bytes + 1;
    }
  }

  predicate CanSend(job: Job, credit: int)
    requires job.Valid()
  {
    credit > 0 && exists k :: 0 <= k < |job.carrying| && job.caps[job.carrying[k]] > 0
  }

  lemma {:induction false} SomePositive(s: seq<int>) returns (k: nat)
    requires Sum(s) > 0
    ensures k < |s| && s[k] > 0
  {
    k := |s| - 1;
    if s[k] <= 0 {
      k := SomePositive(s[..|s| - 1]);
    }
  }

  /** A saturated plan is empty exactly when no byte can be sent. */
  lemma EmptyMeansStuck(job: Job, credit: int, plan: seq<int>)
    requires job.Valid() && Admissible(job, credit, plan) && Saturated(job, credit, plan)
    ensures 0 <= Payload(job, plan)
    ensures Payload(job, plan) == 0 <==> !CanSend(job, credit)
  {
    var amounts := Pick(job, plan);
    SumBounds(amounts, 0, Longest(amounts));
    if Payload(job, plan) > 0 {
      var k := SomePositive(amounts);
      assert job.caps[job.carrying[k]] > 0;
    } else if CanSend(job, credit) {
      var k :| 0 <= k < |job.carrying| && job.caps[job.carrying[k]] > 0;
      forall j | 0 <= j < |amounts|
        ensures amounts[j] == 0
      {
        SumOfNonNegative(amounts, j);
      }
      SumZero(AllFrameBytes(amounts));
      assert amounts[k] == 0;
      assert Room(job, plan, k);
    }
  }

  lemma LevelAdmissible(job: Job, credit: int, p: int)
    requires job.Valid() && Fits(job, credit, p)
    ensures Admissible(job, credit, Level(job, p))
  {
    forall k | 0 <= k < |job.carrying|
      ensures 0 <= Level(job, p)[job.carrying[k]] <= job.caps[job.carrying[k]]
    {
      assert job.ValidStream(job.carrying[k]);
    }
  }

  /** Plans one intermediate record: the greatest common progress that fits, then
      the residual bytes. None means that no DATA can be sent now. */
  method PlanGreedy(job: Job, credit: int, scratch: array<int>)
    returns (plan: Option<seq<int>>, ghost progress: int)
    requires job.Valid() && scratch.Length == |job.length|
    modifies scratch
    ensures credit >= 0 ==> GreatestFit(job, credit, progress) && Admissible(job, credit, Level(job, progress))
    ensures plan.Some? <==> CanSend(job, credit)
    ensures plan.Some? ==> plan.value == Fill(job, credit, Level(job, progress))
    ensures plan.Some? ==> Admissible(job, credit, plan.value) && Saturated(job, credit, plan.value)
    ensures plan.Some? ==> Payload(job, plan.value) > 0
  {
    FirstProgress(job, scratch);
    var low := SearchProgress(job, credit, scratch[..]);
    var payload, bytes, start := Measure(job, ProgressScale(job), scratch[..], low);
    progress := low;
    NothingAtZero(job);
    if credit >= 0 {
      LevelAdmissible(job, credit, low);
      LevelNotNegative(job, low);
    }
    var filled, total := SpendSlack(job, credit, start, payload, bytes);
    if credit >= 0 {
      EmptyMeansStuck(job, credit, filled);
    }
    if total == 0 {
      return None, progress;
    }
    return Some(filled), progress;
  }

  lemma LevelNotNegative(job: Job, p: int)
    requires job.Valid()
    ensures Payload(job, Level(job, p)) >= 0
  {
    var amounts := Pick(job, Level(job, p));
    forall k | 0 <= k < |amounts|
      ensures 0 <= amounts[k] <= Longest(amounts)
    {
      assert job.ValidStream(job.carrying[k]);
    }
    SumBounds(amounts, 0, Longest(amounts));
  }

  /** Streams that are not limited by their cap reach the common fraction. */
  lemma ReachesCommonProgress(job: Job, credit: int, p: int, k: nat)
    requires job.Valid() && Fits(job, credit, p) && Admissible(job, credit, Level(job, p)) && k < |job.carrying|
    ensures var i := job.carrying[k];
            var plan := Fill(job, credit, Level(job, p));
            plan[i] == job.caps[i] || job.sent[i] + plan[i] >= p * job.length[i] / ProgressScale(job)
  {
    var i := job.carrying[k];
    var plan := Fill(job, credit, Level(job, p));
    assert Level(job, p)[i] == Wanted(job, ProgressScale(job), p, i) <= plan[i];
  }
}
