/** The body transfer of one batch: records are planned, reserved and flushed while
    an arbitrary peer moves the flow-control windows between any two critical
    sections of the sender. */
module BodySender {
  import opened Sequences
  import opened FlowControl
  import opened Planner
  import opened ScarcePlanner
  import opened Records
  import opened Ledger
  import opened PeerTurns
  import opened Transfer
  import opened PlannedRecords

  const MAX_CARRYING := 1024

  // --------------------------------------------------- the steps of one record

  method ComputeCaps(flow: Flow, data: Bodies, carrying: seq<int>, sent: seq<int>, owing: bool) returns (caps: seq<int>)
    requires flow.Valid() && |sent| == |data| == |flow.ids| && IsCarrying(data, carrying)
    ensures IsCaps(data, carrying, sent, flow.stream[..], flow.peer.settings.frame, owing, caps)
  {
    caps := seq(|data|, _ => 0);
    var maxFrame := Min(flow.peer.settings.frame, RECORD_BUDGET - FRAME_HEADER);
    for k := 0 to |carrying|
      invariant |caps| == |data|
      invariant forall i :: 0 <= i < |data| ==>
                  caps[i] == CapAt(data, carrying[..k], sent, flow.stream[..], flow.peer.settings.frame, owing, i)
    {
      var i := carrying[k];
      assert carrying[..k + 1] == carrying[..k] + [i];
      var left := |data[i]| - sent[i];
      if owing {
        left := left - 1;
      }
      var cap := Min(left, maxFrame);
      if flow.stream[i] < cap {
        cap := flow.stream[i];
      }
      if cap > 0 {
        caps := caps[i := cap];
      }
    }
    assert carrying[..|carrying|] == carrying;
  }

  /** Nothing but the rest of the first k carrying streams. */
  predicate Filled(filled: seq<int>, rest: seq<int>, carrying: seq<int>, k: nat)
    requires k <= |carrying|
  {
    |filled| == |rest| && forall i :: 0 <= i < |rest| ==> filled[i] == if i in carrying[..k] then rest[i] else 0
  }

  lemma FillOne(filled: seq<int>, rest: seq<int>, carrying: seq<int>, k: nat)
    requires k < |carrying| && Filled(filled, rest, carrying, k) && 0 <= carrying[k] < |rest|
    ensures Filled(filled[carrying[k] := rest[carrying[k]]], rest, carrying, k + 1)
  {
    assert carrying[..k + 1] == carrying[..k] + [carrying[k]];
  }

  lemma FilledAll(data: Bodies, sent: seq<int>, carrying: seq<int>, filled: seq<int>)
    requires IsCarrying(data, carrying) && Progress(data, sent, true)
    requires Filled(filled, Remaining(data, sent), carrying, |carrying|)
    ensures filled == Remaining(data, sent)
  {
    assert carrying[..|carrying|] == carrying;
  }

  /** The size of the shared release, and its needs if it fits one record. */
  method MeasureRelease(data: Bodies, carrying: seq<int>, sent: seq<int>) returns (bytes: int, remaining: seq<int>)
    requires IsCarrying(data, carrying) && Progress(data, sent, true)
    ensures bytes == FinalBytes(data, sent, carrying)
    ensures bytes <= RECORD_BUDGET ==> remaining == Remaining(data, sent)
  {
    remaining := seq(|data|, _ => 0);
    bytes := 0;
    ghost var rest := Remaining(data, sent);
    ghost var costs := AllFrameBytes(Gather(rest, carrying));
    for k := 0 to |carrying|
      invariant bytes == Sum(costs[..k])
      invariant |remaining| == |data| && (bytes <= RECORD_BUDGET ==> Filled(remaining, rest, carrying, k))
    {
      var i := carrying[k];
      SumPrefix(costs, k);
      var left := |data[i]| - sent[i];
      assert costs[k] == FRAME_HEADER + left && rest[i] == left;
      bytes := bytes + FRAME_HEADER + left;
      if bytes <= RECORD_BUDGET {
        FillOne(remaining, rest, carrying, k);
        remaining := remaining[i := left];
      }
    }
    SumAll(costs);
    if bytes <= RECORD_BUDGET {
      FilledAll(data, sent, carrying, remaining);
    }
  }

  /** Reserves the credit of the shared release if it fits one record. */
  method TryRelease(env: Environment, flow: Flow, data: Bodies, carrying: seq<int>, sent: seq<int>) returns (ok: bool)
    requires env.Follows(flow) && |data| == |flow.ids| && IsCarrying(data, carrying) && Progress(data, sent, true)
    modifies env`trace, flow.stream, flow.peer`sendWindow
    ensures env.Follows(flow)
    ensures ok == CanRelease(data, sent, carrying, old(flow.stream[..]), old(flow.peer.sendWindow))
    ensures Spent(env.trace) == Spent(old(env.trace)) + (if ok then [Remaining(data, sent)] else [])
    ensures Given(env.trace) == Given(old(env.trace))
    ensures !ok ==> env.trace == old(env.trace) && BalanceOf(flow) == old(BalanceOf(flow))
    ensures old(env.trace) <= env.trace
  {
    var bytes, remaining := MeasureRelease(data, carrying, sent);
    if bytes > RECORD_BUDGET {
      return false;
    }
    ReleaseTotal(data, sent, carrying);
    ok := env.Reserve(flow, remaining);
  }

  lemma ReleaseTotal(data: Bodies, sent: seq<int>, carrying: seq<int>)
    requires IsCarrying(data, carrying) && Progress(data, sent, true)
    ensures Sum(Remaining(data, sent)) <= FinalBytes(data, sent, carrying)
  {
    var rest := Remaining(data, sent);
    SumOfGathered(rest, carrying);
    SumMonotone(Gather(rest, carrying), AllFrameBytes(Gather(rest, carrying)));
  }

  /** Plans one record from a snapshot of the credit: the best one for it, or none exactly
      if there is nothing to send. */
  method PlanRecord(flow: Flow, data: Bodies, carrying: seq<int>, sent: seq<int>, owing: bool, scratch: array<int>)
    returns (plan: Option<seq<int>>, ghost job: Job)
    requires flow.Valid() && |data| == |flow.ids| == scratch.Length && scratch != flow.stream
    requires Representable(data) && IsCarrying(data, carrying) && Progress(data, sent, owing)
    modifies scratch
    ensures job == JobOf(data, carrying, owing, sent, flow.stream[..]) && job.Valid()
    ensures plan.None? <==> NothingToSend(data, sent, owing, flow.stream[..], flow.peer.sendWindow)
    ensures plan.Some? ==> Admissible(job, flow.peer.sendWindow, plan.value) && Payload(job, plan.value) > 0
    ensures plan.Some? ==> Bounded(data, sent, flow.stream[..], owing, plan.value)
    ensures plan.Some? ==> PlannedFrom(data, carrying, owing, sent, BalanceOf(flow), plan.value)
  {
    var caps := ComputeCaps(flow, data, carrying, sent, owing);
    var current := Job(Lengths(data), sent, carrying, caps);
    job := current;
    SameCaps(data, carrying, owing, sent, flow.stream[..], flow.peer.settings.frame, caps);
    JobIsValid(data, carrying, sent, flow.stream[..], flow.peer.settings.frame, owing, caps);
    NoPlanMeansNothing(data, sent, flow.stream[..], flow.peer.settings.frame, owing, job, flow.peer.sendWindow);
    plan := ChoosePlan(current, flow.peer.sendWindow, scratch);
    if plan.Some? {
      PlanIsBounded(data, sent, flow.stream[..], flow.peer.settings.frame, owing, job, flow.peer.sendWindow,
                    plan.value);
    }
  }

  /** The greedy plan or its substitute. Which streams lag is not observed. */
  method ChoosePlan(job: Job, credit: int, scratch: array<int>) returns (plan: Option<seq<int>>)
    requires job.Valid() && scratch.Length == |job.length|
    modifies scratch
    ensures plan.Some? <==> CanSend(job, credit)
    ensures plan.Some? ==> Admissible(job, credit, plan.value) && Payload(job, plan.value) > 0
    ensures plan.Some? ==> exists p :: BestAt(job, credit, p, plan.value)
  {
    var greedy;
    ghost var p;
    greedy, p := PlanGreedy(job, credit, scratch);
    if greedy.None? {
      return None;
    }
    var lagging: set<int> := *;
    var chosen := ChooseRecord(job, credit, lagging, greedy.value);
    ChosenIsBest(job, credit, p, greedy.value, lagging, chosen);
    return Some(chosen);
  }

  /** Writes the frames of a planned record in stream order. */
  method BuildRecord(data: Bodies, carrying: seq<int>, sent: seq<int>, plan: seq<int>, end: bool) returns (r: Record)
    requires Slices(data, sent, plan, carrying)
    ensures r == Frames(data, sent, plan, carrying, end, |carrying|)
  {
    r := [];
    for k := 0 to |carrying|
      invariant r == Frames(data, sent, plan, carrying, end, k)
    {
      var i := carrying[k];
      if plan[i] != 0 {
        r := r + [DataFrame(i, data[i][sent[i]..sent[i] + plan[i]], end)];
      }
    }
  }

  // ----------------------------------------------------------- the sending loop

  datatype Outcome = Complete | Failed | TimedOut

  datatype Attempt = Flushed | Retry | Starved | Dead

  /** One intermediate record: plan, let the peer act, reserve, write, flush. */
  method SendIntermediate(env: Environment, flow: Flow, data: Bodies, carrying: seq<int>, owing: bool,
                          sent: seq<int>, records: seq<Record>, scratch: array<int>, ghost base: seq<seq<int>>)
    returns (status: Attempt, moved: seq<int>, flushed: seq<Record>)
    requires env.Follows(flow) && |data| == |flow.ids| == scratch.Length && scratch != flow.stream
    requires Representable(data) && IsCarrying(data, carrying) && 0 < |carrying| <= MAX_CARRYING
    requires Moved(data, sent, records, owing) && Settled(base, Spent(env.trace), records, |data|)
    modifies env, flow`changed, flow.stream, flow.peer, scratch
    ensures env.Follows(flow) && Moved(data, moved, flushed, owing)
    ensures Honest(|old(env.turns)|, |env.turns|, old(env.trace), env.trace, base, flushed, |data|, status == Dead)
    ensures old(env.turns) == [] ==> flow.changed == old(flow.changed) && status != Retry
    ensures old(env.turns) == [] && Covered(data, sent, old(flow.stream[..]), old(flow.peer.sendWindow)) ==>
              Covered(data, moved, flow.stream[..], flow.peer.sendWindow)
    ensures status == Flushed ==> Sum(moved) > Sum(sent)
    ensures status != Flushed ==> moved == sent && flushed == records
    ensures status == Starved ==>
              && env.turns == old(env.turns) && flow.changed == old(flow.changed) && env.trace == old(env.trace)
              && BalanceOf(flow) == old(BalanceOf(flow))
    ensures status == Starved <==> NothingToSend(data, sent, owing, old(flow.stream[..]), old(flow.peer.sendWindow))
    ensures status == Retry ==> BalanceOf(flow) != old(BalanceOf(flow))
    ensures status == Flushed ==>
              && |flushed| == |records| + 1 && flushed[..|records|] == records
              && PlannedFrom(data, carrying, owing, sent, old(BalanceOf(flow)), Cost(flushed[|records|], |data|))
  {
    moved, flushed := sent, records;
    var plan, job := PlanRecord(flow, data, carrying, sent, owing, scratch);
    if plan.None? {
      return Starved, moved, flushed;
    }
    PlannedRecord(data, sent, flow.stream[..], records, owing, job, flow.peer.sendWindow, plan.value);
    status, moved, flushed := SendPlanned(env, flow, data, carrying, owing, sent, records, plan.value, base);
  }

  /** The record of a plan that the credit allowed a moment ago. */
  method SendPlanned(env: Environment, flow: Flow, data: Bodies, carrying: seq<int>, owing: bool,
                     sent: seq<int>, records: seq<Record>, plan: seq<int>, ghost base: seq<seq<int>>)
    returns (status: Attempt, moved: seq<int>, flushed: seq<Record>)
    requires env.Follows(flow) && |data| == |flow.ids| && IsCarrying(data, carrying) &&
             Slices(data, sent, plan, carrying)
    requires Moved(data, sent, records, owing) && Settled(base, Spent(env.trace), records, |data|)
    requires CanReserve(flow.peer.sendWindow, flow.stream[..], plan) && Sum(plan) <= RECORD_BUDGET
    requires forall i :: 0 <= i < |plan| ==> plan[i] >= 0 && (i !in carrying ==> plan[i] == 0)
    requires Moved(data, Advance(sent, plan), records + [Frames(data, sent, plan, carrying, false, |carrying|)], owing)
    requires Sum(Advance(sent, plan)) > Sum(sent)
    modifies env, flow`changed, flow.stream, flow.peer
    ensures env.Follows(flow) && Moved(data, moved, flushed, owing) && status != Starved
    ensures status == Retry ==> BalanceOf(flow) != old(BalanceOf(flow))
    ensures status == Flushed ==>
              |flushed| == |records| + 1 && flushed[..|records|] == records && Cost(flushed[|records|], |data|) == plan
    ensures Honest(|old(env.turns)|, |env.turns|, old(env.trace), env.trace, base, flushed, |data|, status == Dead)
    ensures old(env.turns) == [] ==> flow.changed == old(flow.changed) && status == Flushed
    ensures old(env.turns) == [] && Covered(data, sent, old(flow.stream[..]), old(flow.peer.sendWindow)) ==>
              Covered(data, moved, flow.stream[..], flow.peer.sendWindow)
    ensures status == Flushed ==> Sum(moved) > Sum(sent)
    ensures status != Flushed ==> moved == sent && flushed == records
  {
    moved, flushed := sent, records;
    SettleRecord(base, Spent(env.trace), records, data, sent, plan, carrying, false);
    PlanIsCost(data, sent, plan, carrying, false);
    if Covered(data, sent, flow.stream[..], flow.peer.sendWindow) {
      DebitKeepsCovered(data, sent, flow.stream[..], flow.peer.sendWindow, plan);
    }
    var r;
    status, r := FlushPlan(env, flow, data, carrying, sent, plan);
    if status == Flushed {
      moved, flushed := Advance(sent, plan), records + [r];
    }
    FlushIsHonest(|old(env.turns)|, |env.turns|, old(env.trace), env.trace, base, records, r, plan, |data|, status);
  }

  lemma FlushIsHonest(was: nat, now: nat, t: seq<Entry>, t': seq<Entry>, base: seq<seq<int>>, records: seq<Record>,
                      r: Record, plan: seq<int>, n: nat, status: Attempt)
    requires Spends(was, now, status == Dead) && t <= t' && (was == 0 ==> Given(t') == Given(t))
    requires Settled(base, Spent(t), records, n)
    requires SettledButOne(base, Spent(t), records, n) && SettledButOne(base, Spent(t) + [plan], records, n)
    requires status == Flushed ==> Settled(base, Spent(t) + [plan], records + [r], n) && Spent(t') == Spent(t) + [plan]
    requires status == Retry ==> Spent(t') == Spent(t)
    requires status == Dead ==> Ended(t') && (Spent(t') == Spent(t) || Spent(t') == Spent(t) + [plan])
    requires status != Starved
    ensures Honest(was, now, t, t', base, if status == Flushed then records + [r] else records, n, status == Dead)
  {
  }

  /** A failure takes a turn of the peer. */
  predicate Spends(before: nat, after: nat, failed: bool) { after <= before && (failed ==> after < before) }

  /** What the debits of a send say about its records: with failed, one record may have
      been debited and lost, and the send was ended from outside. */
  predicate Charged(trace: seq<Entry>, base: seq<seq<int>>, records: seq<Record>, n: nat, failed: bool) {
    if failed then Ended(trace) && SettledButOne(base, Spent(trace), records, n)
    else Settled(base, Spent(trace), records, n)
  }

  /** What every part of a send keeps: the account only grows and settles with the
      records; failing takes a turn of the peer, and with a silent peer nothing fails and
      nothing is given. */
  ghost predicate Honest(was: nat, now: nat, t: seq<Entry>, t': seq<Entry>, base: seq<seq<int>>,
                         records: seq<Record>, n: nat, failed: bool)
  {
    && Spends(was, now, failed) && t <= t' && Charged(t', base, records, n, failed)
    && (was == 0 ==> Given(t') == Given(t))
  }

  /** A record costs what its plan says. */
  lemma PlanIsCost(data: Bodies, sent: seq<int>, plan: seq<int>, carrying: seq<int>, end: bool)
    requires IsCarrying(data, carrying) && Slices(data, sent, plan, carrying) && Progress(data, sent, false)
    requires forall i :: 0 <= i < |data| && i !in carrying ==> plan[i] == 0
    ensures Cost(Frames(data, sent, plan, carrying, end, |carrying|), |data|) == plan
  {
    forall i | 0 <= i < |data|
      ensures Cost(Frames(data, sent, plan, carrying, end, |carrying|), |data|)[i] == plan[i]
    {
      PlannedSlice(data, sent, carrying, plan, end, i);
    }
  }

  lemma SettleRecord(base: seq<seq<int>>, spent: seq<seq<int>>, records: seq<Record>, data: Bodies, sent: seq<int>,
                     plan: seq<int>, carrying: seq<int>, end: bool)
    requires Settled(base, spent, records, |data|)
    requires IsCarrying(data, carrying) && Slices(data, sent, plan, carrying) && Progress(data, sent, false)
    requires forall i :: 0 <= i < |data| && i !in carrying ==> plan[i] == 0
    ensures Settled(base, spent + [plan], records + [Frames(data, sent, plan, carrying, end, |carrying|)], |data|)
    ensures SettledButOne(base, spent, records, |data|) && SettledButOne(base, spent + [plan], records, |data|)
  {
    PlanIsCost(data, sent, plan, carrying, end);
    SettleOne(base, spent, records, |data|, Frames(data, sent, plan, carrying, end, |carrying|));
  }

  /** Reserves a plan that the credit allowed a moment ago, and writes its record.
      The record is lost if the send fails before its flush. */
  method FlushPlan(env: Environment, flow: Flow, data: Bodies, carrying: seq<int>, sent: seq<int>, plan: seq<int>)
    returns (status: Attempt, r: Record)
    requires env.Follows(flow) && |data| == |flow.ids| && Slices(data, sent, plan, carrying)
    requires CanReserve(flow.peer.sendWindow, flow.stream[..], plan) && Sum(plan) <= RECORD_BUDGET
    requires forall i :: 0 <= i < |plan| ==> plan[i] >= 0
    modifies env, flow`changed, flow.stream, flow.peer
    ensures env.Follows(flow) && Spends(|old(env.turns)|, |env.turns|, status == Dead)
    ensures status != Starved && old(env.trace) <= env.trace
    ensures status == Retry ==> BalanceOf(flow) != old(BalanceOf(flow))
    ensures old(env.turns) == [] ==>
              && env.turns == [] && flow.changed == old(flow.changed) && status == Flushed
              && flow.stream[..] == Debited(old(flow.stream[..]), plan)
              && flow.peer.sendWindow == old(flow.peer.sendWindow) - Sum(plan)
              && Given(env.trace) == Given(old(env.trace))
    ensures status == Flushed ==>
              && r == Frames(data, sent, plan, carrying, false, |carrying|)
              && Spent(env.trace) == Spent(old(env.trace)) + [plan]
    ensures status == Retry ==> Spent(env.trace) == Spent(old(env.trace))
    ensures status == Dead ==>
              && Ended(env.trace)
              && (Spent(env.trace) == Spent(old(env.trace)) || Spent(env.trace) == Spent(old(env.trace)) + [plan])
  {
    var alive := env.Interfere(flow);
    if !alive {
      return Dead, [];
    }
    var ok := env.Reserve(flow, plan);
    if !ok {
      return Retry, [];
    }
    r := BuildRecord(data, carrying, sent, plan, false);
    alive := env.Interfere(flow);
    return if alive then Flushed else Dead, r;
  }

  /** A plan made from some credit can be reserved from it, and its record moves the
      transfer forward. */
  lemma PlannedRecord(data: Bodies, sent: seq<int>, stream: seq<int>, records: seq<Record>, owing: bool, job: Job,
                      window: int, plan: seq<int>)
    requires IsCarrying(data, job.carrying) && Moved(data, sent, records, owing) && |stream| == |data|
    requires job.Valid() && |job.length| == |data| && Admissible(job, window, plan) && Payload(job, plan) > 0
    requires Bounded(data, sent, stream, owing, plan)
    ensures Slices(data, sent, plan, job.carrying) && CanReserve(window, stream, plan) && Sum(plan) <= RECORD_BUDGET
    ensures Moved(data, Advance(sent, plan),
                  records + [Frames(data, sent, plan, job.carrying, false, |job.carrying|)], owing)
    ensures Sum(Advance(sent, plan)) > Sum(sent)
    ensures forall i :: 0 <= i < |plan| ==> plan[i] >= 0 && (i !in job.carrying ==> plan[i] == 0)
  {
    BoundedSlices(data, job.carrying, sent, stream, owing, plan);
    PlanIsReservable(data, sent, stream, owing, job, window, plan);
    FlushPlanned(data, sent, stream, records, owing, job, window, plan);
    PlanTotal(job, window, plan);
    SumAdvance(sent, plan);
  }

  datatype Wake = Woken | Interrupted | Expired

  /** Waits for changed credit until a deadline. The deadline may win although the
      wake-up token is there; without the token no credit has changed. */
  method Drain(env: Environment, flow: Flow) returns (wake: Wake)
    requires env.Follows(flow)
    modifies env, flow`changed, flow.stream, flow.peer
    ensures env.Follows(flow) && Spent(env.trace) == Spent(old(env.trace)) && old(env.trace) <= env.trace
    ensures Spends(|old(env.turns)|, |env.turns|, wake == Interrupted)
    ensures old(env.turns) == [] ==> env.trace == old(env.trace)
    ensures wake == Woken ==> !flow.changed && (|env.turns| < |old(env.turns)| || old(flow.changed))
    ensures wake == Interrupted ==> old(env.turns) != [] && Ended(env.trace)
    ensures wake == Expired ==> flow.changed || (!old(flow.changed) && BalanceOf(flow) == old(BalanceOf(flow)))
  {
    while !flow.changed && env.turns != []
      invariant env.Follows(flow) && Spent(env.trace) == Spent(old(env.trace)) && old(env.trace) <= env.trace
      invariant |env.turns| <= |old(env.turns)| && (old(env.turns) == [] ==> env.trace == old(env.trace))
      invariant flow.changed ==> |env.turns| < |old(env.turns)| || old(flow.changed)
      invariant !flow.changed ==> !old(flow.changed) && BalanceOf(flow) == old(BalanceOf(flow))
      decreases |env.turns|
    {
      if * {
        return Expired;
      }
      var alive := env.Interfere(flow);
      if !alive {
        return Interrupted;
      }
    }
    if flow.changed {
      if * {
        return Expired;
      }
      flow.changed := false;
      return Woken;
    }
    return Expired;
  }

  method FindUnfinished(data: Bodies, carrying: seq<int>, sent: seq<int>) returns (found: bool)
    requires IsCarrying(data, carrying) && Progress(data, sent, false)
    ensures found <==> Unfinished(data, sent)
  {
    for k := 0 to |carrying|
      invariant forall j :: 0 <= j < k ==> sent[carrying[j]] >= |data[carrying[j]]|
    {
      if sent[carrying[k]] < |data[carrying[k]]| {
        return true;
      }
    }
    return false;
  }

  /** The records before a release. */
  function Intermediates(records: seq<Record>, released: bool): seq<Record> {
    if released && records != [] then records[..|records| - 1] else records
  }

  /** The end of a transfer: the release of an owed END_STREAM, or a finished prefix. */
  method TryFinish(env: Environment, flow: Flow, data: Bodies, carrying: seq<int>, owing: bool, sent: seq<int>,
                   records: seq<Record>, ghost base: seq<seq<int>>)
    returns (outcome: Option<Outcome>, flushed: seq<Record>)
    requires env.Follows(flow) && |data| == |flow.ids| && IsCarrying(data, carrying)
    requires Moved(data, sent, records, owing) && Settled(base, Spent(env.trace), records, |data|)
    modifies env, flow`changed, flow.stream, flow.peer
    ensures env.Follows(flow)
    ensures Honest(|old(env.turns)|, |env.turns|, old(env.trace), env.trace, base, flushed, |data|,
                   outcome == Some(Failed))
    ensures outcome == Some(Complete) ==> Whole(data, carrying, flushed, owing)
    ensures outcome == Some(Complete) ==> Intermediates(flushed, owing) == records
    ensures outcome == Some(Failed) ==> flushed == records
    ensures outcome.Some? ==> outcome.value.Complete? || outcome.value.Failed?
    ensures outcome == None ==>
              && flushed == records && env.turns == old(env.turns) && flow.changed == old(flow.changed)
              && BalanceOf(flow) == old(BalanceOf(flow)) && env.trace == old(env.trace)
              && Pending(data, sent, carrying, owing, flow.stream[..], flow.peer.sendWindow)
  {
    flushed := records;
    if !owing {
      var unfinished := FindUnfinished(data, carrying, sent);
      if unfinished {
        return None, records;
      }
      FinishedIsWhole(data, sent, carrying, records);
      return Some(Complete), records;
    }
    RemainingSlices(data, sent, carrying);
    SettleRecord(base, Spent(env.trace), records, data, sent, Remaining(data, sent), carrying, true);
    var ok := TryRelease(env, flow, data, carrying, sent);
    if !ok {
      return None, records;
    }
    ok, flushed := FlushRelease(env, flow, data, carrying, sent, records, base);
    outcome := Some(if ok then Complete else Failed);
  }

  /** Writes and flushes the shared release, which is debited already. */
  method FlushRelease(env: Environment, flow: Flow, data: Bodies, carrying: seq<int>, sent: seq<int>,
                      records: seq<Record>, ghost base: seq<seq<int>>)
    returns (ok: bool, flushed: seq<Record>)
    requires env.Follows(flow) && |data| == |flow.ids| && IsCarrying(data, carrying)
    requires Moved(data, sent, records, true) && FinalBytes(data, sent, carrying) <= RECORD_BUDGET
    requires Settled(base, Spent(env.trace), records + [Release(data, sent, carrying)], |data|)
    requires SettledButOne(base, Spent(env.trace), records, |data|)
    modifies env, flow`changed, flow.stream, flow.peer
    ensures env.Follows(flow)
    ensures Honest(|old(env.turns)|, |env.turns|, old(env.trace), env.trace, base, flushed, |data|, !ok)
    ensures if ok then Whole(data, carrying, flushed, true) && Intermediates(flushed, true) == records
            else flushed == records
  {
    RemainingSlices(data, sent, carrying);
    var r := BuildRecord(data, carrying, sent, Remaining(data, sent), true);
    ok := env.Interfere(flow);
    if !ok {
      return false, records;
    }
    ReleaseIsWhole(data, sent, carrying, records);
    flushed := records + [r];
  }

  /** A timeout means that the sender is stalled, and so the windows do not cover the
      rest, unless the wake-up token of newer credit was still waiting. */
  predicate TimeoutExplained(changed: bool, data: Bodies, carrying: seq<int>, owing: bool, sent: seq<int>, b: Balance)
    requires |sent| == |data| == |b.stream| && IsCarrying(data, carrying)
  {
    changed || (Stalled(data, sent, carrying, owing, b.stream, b.window) && !Covered(data, sent, b.stream, b.window))
  }

  /** What a round of the greedy loop does: from the balance b and the account t with sent
      to the balance b' and the account t' with moved. */
  ghost predicate RoundOk(data: Bodies, carrying: seq<int>, owing: bool, base: seq<seq<int>>, start: Balance,
                          was: nat, t: seq<Entry>, b: Balance, sent: seq<int>, records: seq<Record>,
                          now: nat, t': seq<Entry>, b': Balance, changed: bool,
                          outcome: Option<Outcome>, moved: seq<int>, flushed: seq<Record>, past: seq<Entry>)
    requires |sent| == |data| == |b.stream| == |b'.stream| && IsCarrying(data, carrying)
  {
    && Honest(was, now, t, t', base, flushed, |data|, outcome == Some(Failed)) && past <= t'
    && (outcome == Some(Complete) ==> Whole(data, carrying, flushed, owing) && Intermediates(flushed, owing) == records)
    && (outcome != Some(Complete) ==>
          && Moved(data, moved, flushed, owing) && Extended(data, carrying, owing, records, flushed, base, start, past)
          && (was == 0 && Covered(data, sent, b.stream, b.window) ==>
                outcome == None && Covered(data, moved, b'.stream, b'.window)))
    && (outcome == Some(TimedOut) ==> |moved| == |data| && TimeoutExplained(changed, data, carrying, owing, moved, b'))
  }

  /** A round may begin with a harmless step. */
  lemma RoundAfterStep(data: Bodies, carrying: seq<int>, owing: bool, base: seq<seq<int>>, start: Balance,
                       was: nat, t: seq<Entry>, b: Balance, mid: nat, u: seq<Entry>, c: Balance,
                       sent: seq<int>, records: seq<Record>, now: nat, t': seq<Entry>, b': Balance, changed: bool,
                       outcome: Option<Outcome>, moved: seq<int>, flushed: seq<Record>, past: seq<Entry>)
    requires |sent| == |data| == |b.stream| == |c.stream| == |b'.stream| && IsCarrying(data, carrying)
    requires mid <= was && t <= u && (was == 0 ==> Given(u) == Given(t) && c == b)
    requires RoundOk(data, carrying, owing, base, start, mid, u, c, sent, records, now, t', b', changed,
                     outcome, moved, flushed, past)
    ensures RoundOk(data, carrying, owing, base, start, was, t, b, sent, records, now, t', b', changed,
                    outcome, moved, flushed, past)
  {
  }

  lemma FailedIsOk(data: Bodies, carrying: seq<int>, owing: bool, base: seq<seq<int>>, start: Balance,
                   was: nat, t: seq<Entry>, b: Balance, sent: seq<int>, records: seq<Record>,
                   now: nat, t': seq<Entry>, b': Balance, changed: bool, past: seq<Entry>)
    requires |sent| == |data| == |b.stream| == |b'.stream| && IsCarrying(data, carrying)
    requires Honest(was, now, t, t', base, records, |data|, true) && past <= t' && Moved(data, sent, records, owing)
    ensures RoundOk(data, carrying, owing, base, start, was, t, b, sent, records, now, t', b', changed,
                    Some(Failed), sent, records, past)
  {
  }

  /** A round that goes on has used a turn of the peer, or else the wake-up token, or else has
      sent something. */
  predicate Advances(was: nat, changed: bool, sent: seq<int>, now: nat, changed': bool, moved: seq<int>) {
    now < was || (now == 0 && !changed' && changed) || (now == 0 && changed' == changed && Sum(moved) > Sum(sent))
  }

  /** One round of the greedy loop. It ends the transfer, or consumes a turn of the
      peer, or consumes the wake-up token, or moves bytes. */
  method Round(env: Environment, flow: Flow, data: Bodies, carrying: seq<int>, owing: bool,
               sent: seq<int>, records: seq<Record>, scratch: array<int>, ghost base: seq<seq<int>>)
    returns (outcome: Option<Outcome>, moved: seq<int>, flushed: seq<Record>, ghost past: seq<Entry>)
    requires env.Follows(flow) && |data| == |flow.ids| == scratch.Length && scratch != flow.stream
    requires Representable(data) && IsCarrying(data, carrying) && 0 < |carrying| <= MAX_CARRYING
    requires Moved(data, sent, records, owing) && Settled(base, Spent(env.trace), records, |data|)
    modifies env, flow`changed, flow.stream, flow.peer, scratch
    ensures env.Follows(flow)
    ensures RoundOk(data, carrying, owing, base, env.start, |old(env.turns)|, old(env.trace), old(BalanceOf(flow)),
                    sent, records, |env.turns|, env.trace, BalanceOf(flow), flow.changed, outcome, moved, flushed, past)
    ensures outcome == None ==>
              Advances(|old(env.turns)|, old(flow.changed), sent, |env.turns|, flow.changed, moved)
  {
    moved, flushed, past := sent, records, env.trace;
    var alive := env.Interfere(flow);
    if !alive {
      FailedIsOk(data, carrying, owing, base, env.start, |old(env.turns)|, old(env.trace), old(BalanceOf(flow)),
                 sent, records, |env.turns|, env.trace, BalanceOf(flow), flow.changed, past);
      return Some(Failed), moved, flushed, past;
    }
    ghost var mid, u, c := |env.turns|, env.trace, BalanceOf(flow);
    outcome, moved, flushed, past := FinishOrProceed(env, flow, data, carrying, owing, sent, records, scratch, base);
    RoundAfterStep(data, carrying, owing, base, env.start, |old(env.turns)|, old(env.trace), old(BalanceOf(flow)),
                   mid, u, c, sent, records, |env.turns|, env.trace, BalanceOf(flow), flow.changed,
                   outcome, moved, flushed, past);
  }

  /** The part of a round after the first look at the peer. */
  method FinishOrProceed(env: Environment, flow: Flow, data: Bodies, carrying: seq<int>, owing: bool,
                         sent: seq<int>, records: seq<Record>, scratch: array<int>, ghost base: seq<seq<int>>)
    returns (outcome: Option<Outcome>, moved: seq<int>, flushed: seq<Record>, ghost past: seq<Entry>)
    requires env.Follows(flow) && |data| == |flow.ids| == scratch.Length && scratch != flow.stream
    requires Representable(data) && IsCarrying(data, carrying) && 0 < |carrying| <= MAX_CARRYING
    requires Moved(data, sent, records, owing) && Settled(base, Spent(env.trace), records, |data|)
    modifies env, flow`changed, flow.stream, flow.peer, scratch
    ensures env.Follows(flow)
    ensures RoundOk(data, carrying, owing, base, env.start, |old(env.turns)|, old(env.trace), old(BalanceOf(flow)),
                    sent, records, |env.turns|, env.trace, BalanceOf(flow), flow.changed, outcome, moved, flushed, past)
    ensures outcome == None ==>
              Advances(|old(env.turns)|, old(flow.changed), sent, |env.turns|, flow.changed, moved)
  {
    outcome, flushed := TryFinish(env, flow, data, carrying, owing, sent, records, base);
    if outcome.Some? {
      return outcome, sent, flushed, env.trace;
    }
    outcome, moved, flushed, past := Proceed(env, flow, data, carrying, owing, sent, records, scratch, base);
  }

  /** The transfer is not finished and cannot be finished with these windows. */
  predicate Pending(data: Bodies, sent: seq<int>, carrying: seq<int>, owing: bool, stream: seq<int>, window: int)
    requires |sent| == |stream| == |data| && IsCarrying(data, carrying)
  {
    if owing then !CanRelease(data, sent, carrying, stream, window) else Unfinished(data, sent)
  }

  /** The part of a round after a transfer turned out not to be finished. */
  method Proceed(env: Environment, flow: Flow, data: Bodies, carrying: seq<int>, owing: bool,
                 sent: seq<int>, records: seq<Record>, scratch: array<int>, ghost base: seq<seq<int>>)
    returns (outcome: Option<Outcome>, moved: seq<int>, flushed: seq<Record>, ghost past: seq<Entry>)
    requires env.Follows(flow) && |data| == |flow.ids| == scratch.Length && scratch != flow.stream
    requires Representable(data) && IsCarrying(data, carrying) && 0 < |carrying| <= MAX_CARRYING
    requires Moved(data, sent, records, owing) && Settled(base, Spent(env.trace), records, |data|)
    requires Pending(data, sent, carrying, owing, flow.stream[..], flow.peer.sendWindow)
    modifies env, flow`changed, flow.stream, flow.peer, scratch
    ensures env.Follows(flow) && outcome != Some(Complete)
    ensures RoundOk(data, carrying, owing, base, env.start, |old(env.turns)|, old(env.trace), old(BalanceOf(flow)),
                    sent, records, |env.turns|, env.trace, BalanceOf(flow), flow.changed, outcome, moved, flushed, past)
    ensures outcome == None ==>
              Advances(|old(env.turns)|, old(flow.changed), sent, |env.turns|, flow.changed, moved)
  {
    moved, flushed, past := sent, records, env.trace;
    var alive := env.Interfere(flow);
    if !alive {
      FailedIsOk(data, carrying, owing, base, env.start, |old(env.turns)|, old(env.trace), old(BalanceOf(flow)),
                 sent, records, |env.turns|, env.trace, BalanceOf(flow), flow.changed, past);
      return Some(Failed), moved, flushed, past;
    }
    ghost var was, u, c := |old(env.turns)|, env.trace, BalanceOf(flow);
    outcome, moved, flushed, past := SendOrWait(env, flow, data, carrying, owing, sent, records, scratch, base, was);
    RoundAfterStep(data, carrying, owing, base, env.start, was, old(env.trace), old(BalanceOf(flow)), was, u, c,
                   sent, records, |env.turns|, env.trace, BalanceOf(flow), flow.changed, outcome, moved, flushed, past);
  }

  /** Sends an intermediate record, or waits for credit if there is nothing to send. The
      round began with was turns. */
  method SendOrWait(env: Environment, flow: Flow, data: Bodies, carrying: seq<int>, owing: bool,
                    sent: seq<int>, records: seq<Record>, scratch: array<int>, ghost base: seq<seq<int>>,
                    ghost was: nat)
    returns (outcome: Option<Outcome>, moved: seq<int>, flushed: seq<Record>, ghost past: seq<Entry>)
    requires env.Follows(flow) && |data| == |flow.ids| == scratch.Length && scratch != flow.stream
    requires Representable(data) && IsCarrying(data, carrying) && 0 < |carrying| <= MAX_CARRYING
    requires Moved(data, sent, records, owing) && Settled(base, Spent(env.trace), records, |data|)
    requires flow.changed || Pending(data, sent, carrying, owing, flow.stream[..], flow.peer.sendWindow)
    requires |env.turns| <= was
    requires was == 0 ==> Pending(data, sent, carrying, owing, flow.stream[..], flow.peer.sendWindow)
    modifies env, flow`changed, flow.stream, flow.peer, scratch
    ensures env.Follows(flow) && outcome != Some(Complete)
    ensures RoundOk(data, carrying, owing, base, env.start, was, old(env.trace), old(BalanceOf(flow)),
                    sent, records, |env.turns|, env.trace, BalanceOf(flow), flow.changed, outcome, moved, flushed, past)
    ensures |env.turns| <= |old(env.turns)|
    ensures outcome == None && old(env.turns) == [] ==>
              (!flow.changed && old(flow.changed)) || (flow.changed == old(flow.changed) && Sum(moved) > Sum(sent))
  {
    var status;
    status, moved, flushed, past := SendOne(env, flow, data, carrying, owing, sent, records, scratch, base);
    if status == Starved {
      StarvedIsExplained(flow.changed, data, carrying, owing, sent, BalanceOf(flow), was);
      outcome := Await(env, flow, data, carrying, owing, sent, records, base, past, was);
    } else {
      outcome := if status == Dead then Some(Failed) else None;
      SendingIsOk(data, carrying, owing, base, env.start, was, |old(env.turns)|, old(env.trace), old(BalanceOf(flow)),
                  sent, records, |env.turns|, env.trace, BalanceOf(flow), flow.changed, status, moved, flushed, past);
    }
  }

  lemma SendingIsOk(data: Bodies, carrying: seq<int>, owing: bool, base: seq<seq<int>>, start: Balance,
                    was: nat, mid: nat, t: seq<Entry>, b: Balance, sent: seq<int>, records: seq<Record>,
                    now: nat, t': seq<Entry>, b': Balance, changed: bool, status: Attempt,
                    moved: seq<int>, flushed: seq<Record>, past: seq<Entry>)
    requires |sent| == |data| == |b.stream| == |b'.stream| && IsCarrying(data, carrying) && mid <= was
    requires Honest(mid, now, t, t', base, flushed, |data|, status == Dead) && past <= t'
    requires Moved(data, moved, flushed, owing)
    requires Extended(data, carrying, owing, records, flushed, base, start, past)
    requires was == 0 && Covered(data, sent, b.stream, b.window) ==> Covered(data, moved, b'.stream, b'.window)
    ensures RoundOk(data, carrying, owing, base, start, was, t, b, sent, records, now, t', b', changed,
                    if status == Dead then Some(Failed) else None, moved, flushed, past)
  {
  }

  /** Waits for credit in a round that found nothing to send. */
  method Await(env: Environment, flow: Flow, data: Bodies, carrying: seq<int>, owing: bool, ghost sent: seq<int>,
              ghost records: seq<Record>, ghost base: seq<seq<int>>, ghost past: seq<Entry>, ghost was: nat)
    returns (outcome: Option<Outcome>)
    requires env.Follows(flow) && |data| == |flow.ids| && IsCarrying(data, carrying) && |env.turns| <= was
    requires Moved(data, sent, records, owing) && Settled(base, Spent(env.trace), records, |data|) && past <= env.trace
    requires TimeoutExplained(flow.changed, data, carrying, owing, sent, BalanceOf(flow))
    requires was == 0 ==> !Covered(data, sent, flow.stream[..], flow.peer.sendWindow)
    modifies env, flow`changed, flow.stream, flow.peer
    ensures env.Follows(flow) && outcome != Some(Complete) && |env.turns| <= |old(env.turns)|
    ensures RoundOk(data, carrying, owing, base, env.start, was, old(env.trace), old(BalanceOf(flow)), sent, records,
                    |env.turns|, env.trace, BalanceOf(flow), flow.changed, outcome, sent, records, past)
    ensures outcome == None ==> !flow.changed && (|env.turns| < |old(env.turns)| || old(flow.changed))
  {
    var wake := Drain(env, flow);
    outcome := if wake == Woken then None else Some(if wake == Interrupted then Failed else TimedOut);
  }

  /** One attempt at an intermediate record, among records that were all planned. */
  method SendOne(env: Environment, flow: Flow, data: Bodies, carrying: seq<int>, owing: bool,
                 sent: seq<int>, records: seq<Record>, scratch: array<int>, ghost base: seq<seq<int>>)
    returns (status: Attempt, moved: seq<int>, flushed: seq<Record>, ghost past: seq<Entry>)
    requires env.Follows(flow) && |data| == |flow.ids| == scratch.Length && scratch != flow.stream
    requires Representable(data) && IsCarrying(data, carrying) && 0 < |carrying| <= MAX_CARRYING
    requires Moved(data, sent, records, owing) && Settled(base, Spent(env.trace), records, |data|)
    modifies env, flow`changed, flow.stream, flow.peer, scratch
    ensures env.Follows(flow) && Moved(data, moved, flushed, owing)
    ensures Honest(|old(env.turns)|, |env.turns|, old(env.trace), env.trace, base, flushed, |data|, status == Dead)
    ensures Extended(data, carrying, owing, records, flushed, base, env.start, past) && past <= env.trace
    ensures old(env.turns) == [] ==> flow.changed == old(flow.changed) && status != Retry
    ensures old(env.turns) == [] && Covered(data, sent, old(flow.stream[..]), old(flow.peer.sendWindow)) ==>
              Covered(data, moved, flow.stream[..], flow.peer.sendWindow)
    ensures status == Flushed ==> Sum(moved) > Sum(sent)
    ensures status != Flushed ==> moved == sent && flushed == records
    ensures status == Starved ==>
              && env.turns == old(env.turns) && flow.changed == old(flow.changed) && env.trace == old(env.trace)
              && BalanceOf(flow) == old(BalanceOf(flow))
              && NothingToSend(data, sent, owing, flow.stream[..], flow.peer.sendWindow)
  {
    past := env.trace;
    status, moved, flushed := SendIntermediate(env, flow, data, carrying, owing, sent, records, scratch, base);
    if status == Flushed {
      MovedIsPartial(data, sent, records, owing);
    }
  }

  lemma StarvedIsExplained(changed: bool, data: Bodies, carrying: seq<int>, owing: bool, sent: seq<int>, b: Balance,
                           was: nat)
    requires IsCarrying(data, carrying) && 0 < |carrying| <= MAX_CARRYING && |b.stream| == |data|
    requires Progress(data, sent, owing) && NothingToSend(data, sent, owing, b.stream, b.window)
    requires (changed && was > 0) || Pending(data, sent, carrying, owing, b.stream, b.window)
    ensures TimeoutExplained(changed, data, carrying, owing, sent, b)
    ensures was == 0 ==> !Covered(data, sent, b.stream, b.window)
  {
    if Pending(data, sent, carrying, owing, b.stream, b.window) {
      StuckMeansStarved(data, sent, carrying, owing, b.stream, b.window);
    }
  }

  /** The greedy body phase, for every set of bodies and every behaviour of the peer: it
      ends; on success every body is complete and every byte was debited from windows
      that covered it; otherwise only prefixes are left behind and at most one debited
      record was lost. Every intermediate record was the best one for the windows of its
      moment. It fails only if ended from outside, and times out only if no byte could be
      sent, all credit being used. Credit that covers the bodies suffices if the peer
      stays silent. */
  method SendGreedyBodyPhase(env: Environment, flow: Flow, data: Bodies, carrying: seq<int>, owing: bool)
    returns (outcome: Outcome, records: seq<Record>)
    requires env.Follows(flow) && |data| == |flow.ids|
    requires Representable(data) && IsCarrying(data, carrying) && 0 < |carrying| <= MAX_CARRYING
    modifies env, flow`changed, flow.stream, flow.peer
    ensures env.Follows(flow)
    ensures Honest(|old(env.turns)|, |env.turns|, old(env.trace), env.trace, old(Spent(env.trace)), records, |data|,
                   outcome == Failed)
    ensures outcome == Complete ==> Whole(data, carrying, records, owing)
    ensures outcome != Complete ==> Partial(data, records)
    ensures AllPlanned(data, carrying, owing, Intermediates(records, owing && outcome == Complete),
                       old(Spent(env.trace)), env.start, env.trace)
    ensures outcome == TimedOut ==>
              TimeoutExplained(flow.changed, data, carrying, owing, DeliveredSizes(records, |data|), BalanceOf(flow))
    ensures outcome == TimedOut && !flow.changed ==>
              CreditUsed(data, owing, DeliveredSizes(records, |data|), old(env.trace), old(BalanceOf(flow)), env.trace)
    ensures old(env.turns) == [] && Covered(data, Zeros(|data|), old(flow.stream[..]), old(flow.peer.sendWindow)) ==>
              outcome == Complete
  {
    var sent;
    outcome, records, sent := RunRounds(env, flow, data, carrying, owing);
    if outcome != Complete {
      MovedIsPartial(data, sent, records, owing);
    }
    if outcome == TimedOut && !flow.changed {
      SettledIsAccounted(env.start, old(env.trace), env.trace, records, |data|);
      StalledMeansUsed(data, owing, sent, old(env.trace), old(BalanceOf(flow)), env.trace, BalanceOf(flow));
    }
  }

  /** What the loop keeps: from the account t and the balance b, and nothing sent, to the
      account t' and the balance b' with sent and records. */
  ghost predicate Running(data: Bodies, carrying: seq<int>, owing: bool, start: Balance,
                          was: nat, t: seq<Entry>, b: Balance, now: nat, t': seq<Entry>, b': Balance, changed: bool,
                          sent: seq<int>, records: seq<Record>, done: Option<Outcome>)
    requires |data| == |b.stream| == |b'.stream| && IsCarrying(data, carrying)
  {
    && Honest(was, now, t, t', Spent(t), records, |data|, done == Some(Failed))
    && AllPlanned(data, carrying, owing, Intermediates(records, owing && done == Some(Complete)), Spent(t), start, t')
    && (done == Some(Complete) ==> Whole(data, carrying, records, owing))
    && (done != Some(Complete) ==>
          && Moved(data, sent, records, owing)
          && (was == 0 && Covered(data, Zeros(|data|), b.stream, b.window) ==>
                done == None && Covered(data, sent, b'.stream, b'.window)))
    && (done == Some(TimedOut) ==> |sent| == |data| && TimeoutExplained(changed, data, carrying, owing, sent, b'))
  }

  lemma RoundKeepsRunning(data: Bodies, carrying: seq<int>, owing: bool, start: Balance,
                          was: nat, t: seq<Entry>, b: Balance, mid: nat, u: seq<Entry>, c: Balance, changed: bool,
                          sent: seq<int>, records: seq<Record>, now: nat, t': seq<Entry>, b': Balance, changed': bool,
                          done: Option<Outcome>, moved: seq<int>, flushed: seq<Record>, past: seq<Entry>)
    requires |data| == |b.stream| == |c.stream| == |b'.stream| && IsCarrying(data, carrying)
    requires Running(data, carrying, owing, start, was, t, b, mid, u, c, changed, sent, records, None)
    requires RoundOk(data, carrying, owing, Spent(t), start, mid, u, c, sent, records, now, t', b', changed',
                     done, moved, flushed, past)
    ensures Running(data, carrying, owing, start, was, t, b, now, t', b', changed', moved, flushed, done)
  {
    OneMorePlanned(data, carrying, owing, records, Intermediates(flushed, owing && done == Some(Complete)), Spent(t),
                   start, u, past, t');
  }

  lemma RunningAtFirst(data: Bodies, carrying: seq<int>, owing: bool, start: Balance, was: nat, t: seq<Entry>,
                       b: Balance, changed: bool)
    requires |data| == |b.stream| && IsCarrying(data, carrying)
    ensures Running(data, carrying, owing, start, was, t, b, was, t, b, changed, Zeros(|data|), [], None)
  {
    NothingSent(data, owing);
  }

  /** One more round of a running send, which began with was turns, account t and balance b. */
  method NextRound(env: Environment, flow: Flow, data: Bodies, carrying: seq<int>, owing: bool, sent: seq<int>,
                   records: seq<Record>, scratch: array<int>, ghost was: nat, ghost t: seq<Entry>, ghost b: Balance)
    returns (done: Option<Outcome>, moved: seq<int>, flushed: seq<Record>)
    requires env.Follows(flow) && |data| == |flow.ids| == scratch.Length == |b.stream| && scratch != flow.stream
    requires Representable(data) && IsCarrying(data, carrying) && 0 < |carrying| <= MAX_CARRYING
    requires Running(data, carrying, owing, env.start, was, t, b, |env.turns|, env.trace, BalanceOf(flow), flow.changed,
                     sent, records, None)
    modifies env, flow`changed, flow.stream, flow.peer, scratch
    ensures env.Follows(flow)
    ensures Running(data, carrying, owing, env.start, was, t, b, |env.turns|, env.trace, BalanceOf(flow), flow.changed,
                    moved, flushed, done)
    ensures done == None ==>
              Advances(|old(env.turns)|, old(flow.changed), sent, |env.turns|, flow.changed, moved)
  {
    ghost var turns, trace, balance, changed, past := |env.turns|, env.trace, BalanceOf(flow), flow.changed, [];
    done, moved, flushed, past := Round(env, flow, data, carrying, owing, sent, records, scratch, Spent(t));
    RoundKeepsRunning(data, carrying, owing, env.start, was, t, b, turns, trace, balance, changed, sent, records,
                      |env.turns|, env.trace, BalanceOf(flow), flow.changed, done, moved, flushed, past);
  }

  /** The loop of the greedy phase. */
  method RunRounds(env: Environment, flow: Flow, data: Bodies, carrying: seq<int>, owing: bool)
    returns (outcome: Outcome, records: seq<Record>, sent: seq<int>)
    requires env.Follows(flow) && |data| == |flow.ids|
    requires Representable(data) && IsCarrying(data, carrying) && 0 < |carrying| <= MAX_CARRYING
    modifies env, flow`changed, flow.stream, flow.peer
    ensures env.Follows(flow)
    ensures Running(data, carrying, owing, env.start, |old(env.turns)|, old(env.trace), old(BalanceOf(flow)),
                    |env.turns|, env.trace, BalanceOf(flow), flow.changed, sent, records, Some(outcome))
  {
    var scratch := new int[|data|];
    sent, records := Zeros(|data|), [];
    ghost var was, t, b := |env.turns|, env.trace, BalanceOf(flow);
    RunningAtFirst(data, carrying, owing, env.start, was, t, b, flow.changed);
    var done := None;
    while done.None?
      invariant env.Follows(flow)
      invariant Running(data, carrying, owing, env.start, was, t, b, |env.turns|, env.trace, BalanceOf(flow),
                        flow.changed, sent, records, done)
      decreases done.None?, |env.turns|, flow.changed, Left(data, sent)
    {
      LeftIsNat(data, sent);
      done, sent, records := NextRound(env, flow, data, carrying, owing, sent, records, scratch, was, t, b);
    }
    outcome := done.value;
  }

  function Left(data: Bodies, sent: seq<int>): int { Sum(Lengths(data)) - Sum(sent) }

  lemma LeftIsNat(data: Bodies, sent: seq<int>)
    requires Progress(data, sent, false)
    ensures Left(data, sent) >= 0
  {
    SumMonotone(sent, Lengths(data));
  }
}
