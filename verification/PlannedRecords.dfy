/** What the records of the greedy phase are worth: each is the best plan for the windows
    of the moment it was planned. */
module PlannedRecords {
  import opened Sequences
  import opened FlowControl
  import opened Planner
  import opened ScarcePlanner
  import opened Records
  import opened Ledger
  import opened Transfer

  function CapsOf(data: Bodies, carrying: seq<int>, owing: bool, sent: seq<int>, stream: seq<int>): (caps: seq<int>)
    requires |sent| == |stream| == |data|
    ensures IsCaps(data, carrying, sent, stream, RECORD_BUDGET, owing, caps)
  {
    seq(|data|, i requires 0 <= i < |data| => CapAt(data, carrying, sent, stream, RECORD_BUDGET, owing, i))
  }

  /** The planner's job for these windows. Every legal frame size exceeds a record, so the
      caps do not depend on it. */
  function JobOf(data: Bodies, carrying: seq<int>, owing: bool, sent: seq<int>, stream: seq<int>): (job: Job)
    requires |sent| == |stream| == |data|
  {
    Job(Lengths(data), sent, carrying, CapsOf(data, carrying, owing, sent, stream))
  }

  lemma SameCaps(data: Bodies, carrying: seq<int>, owing: bool, sent: seq<int>, stream: seq<int>, frame: int,
                 caps: seq<int>)
    requires |sent| == |stream| == |data| && frame >= RECORD_BUDGET
    requires IsCaps(data, carrying, sent, stream, frame, owing, caps)
    ensures caps == CapsOf(data, carrying, owing, sent, stream)
  {
    var own := CapsOf(data, carrying, owing, sent, stream);
    forall i | 0 <= i < |data|
      ensures own[i] == caps[i]
    {
      FrameIsLarge(|data[i]| - sent[i], owing, frame, stream[i]);
    }
  }

  lemma FrameIsLarge(left: int, owing: bool, frame: int, credit: int)
    requires frame >= RECORD_BUDGET
    ensures CapOf(left, owing, frame, credit) == CapOf(left, owing, RECORD_BUDGET, credit)
  {
  }

  /** The plan is the saturated filling of the greatest common progress p that fits, or a
      substitute for a small record of it that carries no fewer bytes. */
  ghost predicate BestAt(job: Job, credit: int, p: int, plan: seq<int>)
    requires job.Valid()
  {
    && GreatestFit(job, credit, p) && Admissible(job, credit, Level(job, p)) && Admissible(job, credit, plan)
    && var greedy := Fill(job, credit, Level(job, p));
       && Payload(job, plan) >= Payload(job, greedy) > 0
       && (plan == greedy ||
           (RecordBytes(job, greedy) < SCARCE_RECORD && exists lagging :: Useful(job, credit, lagging, plan)))
  }

  lemma ChosenIsBest(job: Job, credit: int, p: int, greedy: seq<int>, lagging: set<int>, plan: seq<int>)
    requires job.Valid() && GreatestFit(job, credit, p) && Admissible(job, credit, Level(job, p))
    requires greedy == Fill(job, credit, Level(job, p)) && Payload(job, greedy) > 0
    requires Admissible(job, credit, plan) && Payload(job, plan) >= Payload(job, greedy)
    requires plan == greedy || (RecordBytes(job, greedy) < SCARCE_RECORD && Useful(job, credit, lagging, plan))
    ensures BestAt(job, credit, p, plan)
  {
  }

  /** A best plan carries at least the bytes of a plan to which no byte can be added; and
      unless that is a small record, every stream reaches its cap or the common progress. */
  lemma BestAdvances(job: Job, credit: int, p: int, plan: seq<int>, k: nat)
    requires job.Valid() && BestAt(job, credit, p, plan) && k < |job.carrying|
    ensures var i, greedy := job.carrying[k], Fill(job, credit, Level(job, p));
            && Saturated(job, credit, greedy) && Payload(job, plan) >= Payload(job, greedy)
            && (RecordBytes(job, greedy) >= SCARCE_RECORD ==>
                  plan[i] == job.caps[i] || job.sent[i] + plan[i] >= p * job.length[i] / ProgressScale(job))
  {
    ReachesCommonProgress(job, credit, p, k);
  }

  /** The plan is best for these windows. */
  ghost predicate PlannedFrom(data: Bodies, carrying: seq<int>, owing: bool, sent: seq<int>, b: Balance,
                              plan: seq<int>)
  {
    && |sent| == |b.stream| == |plan| == |data|
    && var job := JobOf(data, carrying, owing, sent, b.stream);
       job.Valid() && exists p :: BestAt(job, b.window, p, plan)
  }

  /** The record is best for the windows of this moment, when exactly the records before
      it had been debited. */
  ghost predicate PlannedThen(data: Bodies, carrying: seq<int>, owing: bool, before: seq<Record>, r: Record,
                              base: seq<seq<int>>, start: Balance, past: seq<Entry>)
  {
    && Settled(base, Spent(past), before, |data|)
    && PlannedFrom(data, carrying, owing, DeliveredSizes(before, |data|), Replay(start, past), Cost(r, |data|))
  }

  ghost predicate Planned(data: Bodies, carrying: seq<int>, owing: bool, before: seq<Record>, r: Record,
                          base: seq<seq<int>>, start: Balance, trace: seq<Entry>)
  {
    exists past :: past <= trace && PlannedThen(data, carrying, owing, before, r, base, start, past)
  }

  /** Every record was planned at some moment of the account. */
  ghost predicate AllPlanned(data: Bodies, carrying: seq<int>, owing: bool, records: seq<Record>,
                             base: seq<seq<int>>, start: Balance, trace: seq<Entry>)
    decreases |records|
  {
    records == [] ||
    (var front, r := records[..|records| - 1], records[|records| - 1];
     && AllPlanned(data, carrying, owing, front, base, start, trace)
     && Planned(data, carrying, owing, front, r, base, start, trace))
  }

  lemma PlannedLater(data: Bodies, carrying: seq<int>, owing: bool, before: seq<Record>, r: Record,
                     base: seq<seq<int>>, start: Balance, trace: seq<Entry>, later: seq<Entry>)
    requires Planned(data, carrying, owing, before, r, base, start, trace) && trace <= later
    ensures Planned(data, carrying, owing, before, r, base, start, later)
  {
  }

  lemma {:induction false} AllPlannedLater(data: Bodies, carrying: seq<int>, owing: bool, records: seq<Record>,
                                           base: seq<seq<int>>, start: Balance, trace: seq<Entry>, later: seq<Entry>)
    requires AllPlanned(data, carrying, owing, records, base, start, trace) && trace <= later
    ensures AllPlanned(data, carrying, owing, records, base, start, later)
    decreases |records|
  {
    if records != [] {
      var front, r := records[..|records| - 1], records[|records| - 1];
      AllPlannedLater(data, carrying, owing, front, base, start, trace, later);
      PlannedLater(data, carrying, owing, front, r, base, start, trace, later);
    }
  }

  /** flushed is records, or one record more that was best when the account was past. */
  ghost predicate Extended(data: Bodies, carrying: seq<int>, owing: bool, records: seq<Record>, flushed: seq<Record>,
                           base: seq<seq<int>>, start: Balance, past: seq<Entry>)
  {
    || flushed == records
    || (&& |flushed| == |records| + 1 && flushed[..|records|] == records
        && PlannedThen(data, carrying, owing, records, flushed[|records|], base, start, past))
  }

  /** A record planned at some moment joins the others. */
  lemma OneMorePlanned(data: Bodies, carrying: seq<int>, owing: bool, records: seq<Record>, flushed: seq<Record>,
                       base: seq<seq<int>>, start: Balance, trace: seq<Entry>, past: seq<Entry>, later: seq<Entry>)
    requires AllPlanned(data, carrying, owing, records, base, start, trace) && trace <= later
    requires Extended(data, carrying, owing, records, flushed, base, start, past) && past <= later
    ensures AllPlanned(data, carrying, owing, flushed, base, start, later)
  {
    AllPlannedLater(data, carrying, owing, records, base, start, trace, later);
    if flushed != records {
      assert Planned(data, carrying, owing, records, flushed[|records|], base, start, later);
    }
  }

  // -------------------------------------------------------------- a stalled account

  /** All credit was used: the connection's to the byte, or that of every stream which
      still has bytes to send, besides the byte kept for the release. */
  ghost predicate CreditUsed(data: Bodies, owing: bool, sent: seq<int>, t: seq<Entry>, b: Balance, t': seq<Entry>)
    requires |sent| == |b.stream| == |data|
  {
    || Sum(sent) == b.window + ConnectionGained(t') - ConnectionGained(t)
    || forall i :: 0 <= i < |data| && |data[i]| > 0 ==>
         || |data[i]| - sent[i] <= (if owing then 1 else 0)
         || sent[i] >= b.stream[i] + StreamGained(t', i) - StreamGained(t, i)
  }

  /** A sender that stalls has used what it was given. */
  lemma StalledMeansUsed(data: Bodies, owing: bool, sent: seq<int>, t: seq<Entry>, b: Balance, t': seq<Entry>,
                         b': Balance)
    requires Accounted(t, b, t', b', sent) && |sent| == |data| && b'.window >= 0
    requires NothingToSend(data, sent, owing, b'.stream, b'.window)
    ensures CreditUsed(data, owing, sent, t, b, t')
  {
    if b'.window > 0 {
      forall i | 0 <= i < |data| && |data[i]| > 0
        ensures |data[i]| - sent[i] <= (if owing then 1 else 0) ||
                sent[i] >= b.stream[i] + StreamGained(t', i) - StreamGained(t, i)
      {
        assert UsedUp(|data[i]| - sent[i], owing, b'.stream[i]);
      }
    }
  }
}
