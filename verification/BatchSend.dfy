/** The whole body-carrying send of a batch: the fitting record, the greedy phase,
    and the withheld tail with its shared release. */
module BatchSend {
  import opened Sequences
  import opened FlowControl
  import opened Planner
  import opened Perms
  import opened Records
  import opened Ledger
  import opened PeerTurns
  import opened Transfer
  import opened PlannedRecords
  import opened BodySender

  /** The end of a successful transfer; without body bytes no DATA is written, since
      HEADERS already carried END_STREAM. */
  predicate Finished(data: Bodies, carrying: seq<int>, records: seq<Record>, owing: bool) {
    if carrying == [] then records == [] else Whole(data, carrying, records, owing)
  }

  method CollectCarrying(data: Bodies) returns (carrying: seq<int>)
    ensures IsCarrying(data, carrying)
  {
    carrying := [];
    for i := 0 to |data|
      invariant forall k :: 0 <= k < |carrying| ==> 0 <= carrying[k] < i && |data[carrying[k]]| > 0
      invariant forall j, k :: 0 <= j < k < |carrying| ==> carrying[j] != carrying[k]
      invariant forall j :: 0 <= j < i && j !in carrying ==> |data[j]| == 0
    {
      if |data[i]| > 0 {
        carrying := carrying + [i];
      }
    }
  }

  /** All bodies as one record. */
  function OneRecord(data: Bodies): int { Sum(AllFrameBytes(Lengths(data))) }

  lemma OneRecordIsFinal(data: Bodies, carrying: seq<int>)
    requires IsCarrying(data, carrying)
    ensures OneRecord(data) == FinalBytes(data, Zeros(|data|), carrying)
  {
    var costs := AllFrameBytes(Lengths(data));
    SumOfGathered(costs, carrying);
    AllRemains(data);
    assert Gather(costs, carrying) == AllFrameBytes(Gather(Lengths(data), carrying));
  }

  lemma WholeSlices(data: Bodies, carrying: seq<int>)
    requires IsCarrying(data, carrying)
    ensures Slices(data, Zeros(|data|), Lengths(data), carrying)
  {
  }

  lemma OneReleaseIsWhole(data: Bodies, carrying: seq<int>)
    requires IsCarrying(data, carrying) && OneRecord(data) <= RECORD_BUDGET
    ensures Whole(data, carrying, [Release(data, Zeros(|data|), carrying)], true)
  {
    OneRecordIsFinal(data, carrying);
    NothingSent(data, true);
    ReleaseIsWhole(data, Zeros(|data|), carrying, []);
    var r := Release(data, Zeros(|data|), carrying);
    assert [] + [r] == [r];
  }

  lemma OnePrefixIsWhole(data: Bodies, carrying: seq<int>)
    requires IsCarrying(data, carrying) && OneRecord(data) <= RECORD_BUDGET
    requires Slices(data, Zeros(|data|), Lengths(data), carrying)
    ensures Whole(data, carrying, [Frames(data, Zeros(|data|), Lengths(data), carrying, false, |carrying|)], false)
  {
    var none, all := Zeros(|data|), Lengths(data);
    var r := Frames(data, none, all, carrying, false, |carrying|);
    OneRecordIsFinal(data, carrying);
    AllRemains(data);
    FramesSize(data, none, all, carrying, false, |carrying|);
    FramesMembers(data, none, all, carrying, false, |carrying|);
    SumAll(AllFrameBytes(Gather(all, carrying)));
    assert [] + [r] == [r];
    forall i | 0 <= i < |data|
      ensures Delivered([r], i) == data[i]
    {
      AppendDelivers(data, none, [], carrying, all, false, i);
      assert data[i][..none[i] + all[i]] == data[i];
    }
  }

  lemma AllRemains(data: Bodies)
    ensures Remaining(data, Zeros(|data|)) == Lengths(data)
  {
  }

  /** Bodies that fit are complete after one record. */
  lemma OneRecordIsWhole(data: Bodies, carrying: seq<int>, owing: bool)
    requires IsCarrying(data, carrying) && OneRecord(data) <= RECORD_BUDGET
    requires Slices(data, Zeros(|data|), Lengths(data), carrying)
    ensures Whole(data, carrying, [Frames(data, Zeros(|data|), Lengths(data), carrying, owing, |carrying|)], owing)
  {
    if owing {
      OneReleaseIsWhole(data, carrying);
      AllRemains(data);
    } else {
      OnePrefixIsWhole(data, carrying);
    }
  }

  /** Sizes the bodies for one record; none means that they do not fit. */
  method MeasureFitting(data: Bodies, frame: int) returns (needs: Option<seq<int>>)
    requires frame >= RECORD_BUDGET
    ensures needs.Some? <==> OneRecord(data) <= RECORD_BUDGET
    ensures needs.Some? ==> needs.value == Lengths(data)
  {
    var filled := [];
    var bytes := 0;
    ghost var costs := AllFrameBytes(Lengths(data));
    for i := 0 to |data|
      invariant 0 <= bytes == Sum(costs[..i]) <= RECORD_BUDGET
      invariant filled == Lengths(data)[..i]
    {
      SumPrefix(costs, i);
      assert costs[i] == FrameBytes(|data[i]|);
      if |data[i]| > 0 {
        if |data[i]| > frame || |data[i]| > RECORD_BUDGET - bytes - FRAME_HEADER {
          PrefixBelow(costs, i + 1);
          return None;
        }
        bytes := bytes + FRAME_HEADER + |data[i]|;
      }
      filled := filled + [|data[i]|];
    }
    SumAll(costs);
    return Some(filled);
  }

  lemma {:induction false} PrefixBelow(costs: seq<int>, i: nat)
    requires i <= |costs| && forall k :: 0 <= k < |costs| ==> costs[k] >= 0
    ensures Sum(costs[..i]) <= Sum(costs)
    decreases |costs| - i
  {
    if i == |costs| {
      SumAll(costs);
    } else {
      SumPrefix(costs, i);
      PrefixBelow(costs, i + 1);
    }
  }

  lemma LengthsBelowRecord(data: Bodies)
    ensures Sum(Lengths(data)) <= OneRecord(data)
  {
    SumMonotone(Lengths(data), AllFrameBytes(Lengths(data)));
  }

  /** Sends everything in one record if it fits and the credit is there now; none
      leaves the windows untouched for the greedy phase. */
  method SendFitting(env: Environment, flow: Flow, data: Bodies, carrying: seq<int>, owing: bool)
    returns (outcome: Option<Outcome>, records: seq<Record>)
    requires env.Follows(flow) && |data| == |flow.ids| && IsCarrying(data, carrying)
    modifies env, flow`changed, flow.stream, flow.peer
    ensures env.Follows(flow)
    ensures Honest(|old(env.turns)|, |env.turns|, old(env.trace), env.trace, old(Spent(env.trace)), records, |data|,
                   outcome == Some(Failed))
    ensures outcome == Some(Complete) ==> |records| <= 1 && Finished(data, carrying, records, owing)
    ensures outcome != Some(Complete) ==> records == []
    ensures outcome.Some? ==> outcome.value.Complete? || outcome.value.Failed?
    ensures outcome == None <==>
              (|| OneRecord(data) > RECORD_BUDGET
               || (carrying != [] && !CanReserve(old(flow.peer.sendWindow), old(flow.stream[..]), Lengths(data))))
    ensures outcome == None ==>
              && carrying != [] && env.turns == old(env.turns) && env.trace == old(env.trace)
              && flow.changed == old(flow.changed) && BalanceOf(flow) == old(BalanceOf(flow))
  {
    records := [];
    var needs := MeasureFitting(data, flow.peer.settings.frame);
    if needs.None? {
      if carrying == [] {
        SumZero(AllFrameBytes(Lengths(data)));
      }
      return None, [];
    }
    if carrying == [] {
      return Some(Complete), [];
    }
    LengthsBelowRecord(data);
    WholeSlices(data, carrying);
    NothingSent(data, owing);
    SettleRecord(Spent(env.trace), Spent(env.trace), [], data, Zeros(|data|), Lengths(data), carrying, owing);
    var ok := env.Reserve(flow, needs.value);
    if !ok {
      return None, [];
    }
    var r := BuildRecord(data, carrying, Zeros(|data|), needs.value, owing);
    var alive := env.Interfere(flow);
    if !alive {
      return Some(Failed), [];
    }
    OneRecordIsWhole(data, carrying, owing);
    assert [] + [r] == [r];
    return Some(Complete), [r];
  }

  /** The fitting record, or else the greedy phase. */
  method SendBody(env: Environment, flow: Flow, data: Bodies, owing: bool)
    returns (outcome: Outcome, records: seq<Record>, carrying: seq<int>)
    requires env.Follows(flow) && |data| == |flow.ids| && Representable(data)
    modifies env, flow`changed, flow.stream, flow.peer
    ensures env.Follows(flow) && IsCarrying(data, carrying)
    ensures |carrying| <= MAX_CARRYING ==>
              Honest(|old(env.turns)|, |env.turns|, old(env.trace), env.trace, old(Spent(env.trace)), records, |data|,
                     outcome == Failed)
    ensures outcome == Complete ==> Finished(data, carrying, records, owing)
    ensures outcome != Complete ==> Partial(data, records)
    ensures (outcome == Complete && |records| <= 1) ||
            AllPlanned(data, carrying, owing, Intermediates(records, owing && outcome == Complete),
                       old(Spent(env.trace)), env.start, env.trace)
    ensures outcome == TimedOut ==>
              carrying != [] &&
              TimeoutExplained(flow.changed, data, carrying, owing, DeliveredSizes(records, |data|), BalanceOf(flow))
    ensures outcome == TimedOut && !flow.changed ==>
              CreditUsed(data, owing, DeliveredSizes(records, |data|), old(env.trace), old(BalanceOf(flow)), env.trace)
    ensures |carrying| > MAX_CARRYING ==> outcome == Failed && records == [] && env.trace == old(env.trace)
    ensures (&& old(env.turns) == [] && |carrying| <= MAX_CARRYING
             && Covered(data, Zeros(|data|), old(flow.stream[..]), old(flow.peer.sendWindow))) ==> outcome == Complete
  {
    carrying := CollectCarrying(data);
    NothingSent(data, false);
    MovedIsPartial(data, Zeros(|data|), [], false);
    if |carrying| > MAX_CARRYING {
      return Failed, [], carrying;
    }
    var fitting;
    fitting, records := SendFitting(env, flow, data, carrying, owing);
    if fitting.Some? {
      return fitting.value, records, carrying;
    }
    outcome, records := SendGreedyBodyPhase(env, flow, data, carrying, owing);
  }

  // ---------------------------------------------------------- the withheld tail

  predicate ValidPivots(bodies: Bodies, pivots: seq<int>) {
    |pivots| == |bodies| && forall i :: 0 <= i < |bodies| ==> 0 <= pivots[i] <= |bodies[i]|
  }

  /** The tail of every body and the size of the record that releases them; none if a
      pivot is invalid or the tails do not fit one record. */
  method TailReleaseNeeds(bodies: Bodies, pivots: seq<int>) returns (needs: Option<seq<int>>)
    ensures needs.Some? <==>
              ValidPivots(bodies, pivots) && Sum(AllFrameBytes(Remaining(bodies, pivots))) <= RECORD_BUDGET
    ensures needs.Some? ==> needs.value == Remaining(bodies, pivots)
  {
    if |pivots| != |bodies| {
      return None;
    }
    ghost var tails := Remaining(bodies, pivots);
    ghost var costs := AllFrameBytes(tails);
    var filled := [];
    var bytes := 0;
    for i := 0 to |bodies|
      invariant forall k :: 0 <= k < i ==> 0 <= pivots[k] <= |bodies[k]|
      invariant filled == tails[..i] && bytes == Sum(costs[..i]) >= 0
    {
      if pivots[i] < 0 || pivots[i] > |bodies[i]| {
        return None;
      }
      SumPrefix(costs, i);
      var need := |bodies[i]| - pivots[i];
      assert costs[i] == FrameBytes(need);
      if need != 0 {
        if need > RECORD_BUDGET - FRAME_HEADER {
          OversizedTail(bodies, pivots, i);
          return None;
        }
        bytes := bytes + FRAME_HEADER + need;
      }
      filled := filled + [need];
    }
    SumAll(costs);
    if bytes > RECORD_BUDGET {
      return None;
    }
    return Some(filled);
  }

  lemma OversizedTail(bodies: Bodies, pivots: seq<int>, i: nat)
    requires |pivots| == |bodies| && i < |bodies| && |bodies[i]| - pivots[i] > RECORD_BUDGET - FRAME_HEADER
    ensures !(ValidPivots(bodies, pivots) && Sum(AllFrameBytes(Remaining(bodies, pivots))) <= RECORD_BUDGET)
  {
    if ValidPivots(bodies, pivots) {
      SumOfNonNegative(AllFrameBytes(Remaining(bodies, pivots)), i);
    }
  }

  function Pivots(bodies: Bodies, withheld: int): (p: seq<int>)
    requires withheld > 0
    ensures ValidPivots(bodies, p) && Progress(bodies, p, true)
    ensures forall i :: 0 <= i < |p| ==> p[i] + Min(withheld, |bodies[i]|) == |bodies[i]|
  {
    seq(|bodies|, i requires 0 <= i < |bodies| => Max(0, |bodies[i]| - withheld))
  }

  function Prefixes(bodies: Bodies, pivots: seq<int>): (p: Bodies)
    requires ValidPivots(bodies, pivots)
  {
    seq(|bodies|, i requires 0 <= i < |bodies| => bodies[i][..pivots[i]])
  }

  /** Unless the send has failed already, waits until all tails can be reserved at once,
      and debits them. */
  method ReserveTails(env: Environment, flow: Flow, needs: seq<int>) returns (outcome: Outcome)
    requires env.Follows(flow) && |needs| == |flow.ids| && Sum(needs) <= MAX_WINDOW
    requires forall i :: 0 <= i < |needs| ==> needs[i] >= 0
    modifies env, flow`changed, flow.stream, flow.peer
    ensures env.Follows(flow) && Spends(|old(env.turns)|, |env.turns|, outcome == Failed) && old(env.trace) <= env.trace
    ensures Spent(env.trace) == old(Spent(env.trace)) + (if outcome == Complete then [needs] else [])
    ensures outcome == Failed ==> Ended(env.trace)
    ensures outcome == TimedOut ==> flow.changed || !CanReserve(flow.peer.sendWindow, flow.stream[..], needs)
    ensures old(env.turns) == [] ==>
              && Given(env.trace) == Given(old(env.trace))
              && (CanReserve(old(flow.peer.sendWindow), old(flow.stream[..]), needs) ==> outcome == Complete)
  {
    var alive := env.Interfere(flow);
    if !alive {
      return Failed;
    }
    ghost var silent, first := old(env.turns) == [], true;
    while true
      invariant env.Follows(flow) && Spent(env.trace) == old(Spent(env.trace)) && |env.turns| <= |old(env.turns)|
      invariant old(env.trace) <= env.trace && (silent ==> env.turns == [] && Given(env.trace) == Given(old(env.trace)))
      invariant silent ==> if first then BalanceOf(flow) == old(BalanceOf(flow))
                           else !CanReserve(old(flow.peer.sendWindow), old(flow.stream[..]), needs)
      decreases |env.turns|, flow.changed
    {
      var ok := env.Reserve(flow, needs);
      if ok {
        return Complete;
      }
      first := false;
      var wake := Drain(env, flow);
      if wake != Woken {
        return if wake == Expired then TimedOut else Failed;
      }
    }
  }

  lemma PrefixesMoved(bodies: Bodies, pivots: seq<int>, carrying: seq<int>, records: seq<Record>)
    requires ValidPivots(bodies, pivots) && Progress(bodies, pivots, true)
    requires IsCarrying(Prefixes(bodies, pivots), carrying) &&
             Finished(Prefixes(bodies, pivots), carrying, records, false)
    ensures Moved(bodies, pivots, records, true)
  {
    var prefixes := Prefixes(bodies, pivots);
    forall i | 0 <= i < |bodies|
      ensures Delivered(records, i) == bodies[i][..pivots[i]]
    {
      assert prefixes[i] == bodies[i][..pivots[i]];
    }
  }

  lemma PrefixPartial(bodies: Bodies, pivots: seq<int>, records: seq<Record>)
    requires ValidPivots(bodies, pivots) && Partial(Prefixes(bodies, pivots), records)
    ensures Partial(bodies, records)
  {
    forall i | 0 <= i < |bodies|
      ensures Delivered(records, i) <= bodies[i]
    {
      assert Prefixes(bodies, pivots)[i] <= bodies[i];
    }
  }

  lemma PrefixKept(bodies: Bodies, pivots: seq<int>, records: seq<Record>)
    requires ValidPivots(bodies, pivots) && Partial(Prefixes(bodies, pivots), records)
    ensures KeptBack(bodies, pivots, false, records)
  {
    forall i | 0 <= i < |bodies|
      ensures |Delivered(records, i)| <= pivots[i]
    {
      assert Delivered(records, i) <= Prefixes(bodies, pivots)[i];
    }
  }

  /** Windows that do not cover the rest of the prefixes do not cover the rest of the
      bodies. */
  lemma PrefixStarved(bodies: Bodies, pivots: seq<int>, sent: seq<int>, stream: seq<int>, window: int)
    requires ValidPivots(bodies, pivots) && |sent| == |stream| == |bodies|
    requires Covered(bodies, sent, stream, window)
    ensures Covered(Prefixes(bodies, pivots), sent, stream, window)
  {
    SumMonotone(Remaining(Prefixes(bodies, pivots), sent), Remaining(bodies, sent));
  }

  lemma TailsFit(bodies: Bodies, pivots: seq<int>, carrying: seq<int>)
    requires IsCarrying(bodies, carrying) && ValidPivots(bodies, pivots)
    ensures FinalBytes(bodies, pivots, carrying) == Sum(AllFrameBytes(Remaining(bodies, pivots)))
    ensures Sum(Remaining(bodies, pivots)) <= Sum(AllFrameBytes(Remaining(bodies, pivots)))
  {
    var tails := Remaining(bodies, pivots);
    var costs := AllFrameBytes(tails);
    SumOfGathered(costs, carrying);
    assert Gather(costs, carrying) == AllFrameBytes(Gather(tails, carrying));
    SumMonotone(tails, costs);
  }

  /** Releases every withheld tail with END_STREAM in one record. */
  method ReleaseTails(env: Environment, flow: Flow, bodies: Bodies, carrying: seq<int>, pivots: seq<int>,
                      needs: seq<int>, records: seq<Record>, ghost base: seq<seq<int>>)
    returns (outcome: Outcome, flushed: seq<Record>)
    requires env.Follows(flow) && |bodies| == |flow.ids| && IsCarrying(bodies, carrying)
    requires Moved(bodies, pivots, records, true) && needs == Remaining(bodies, pivots)
    requires Sum(AllFrameBytes(needs)) <= RECORD_BUDGET && Settled(base, Spent(env.trace), records, |bodies|)
    modifies env, flow`changed, flow.stream, flow.peer
    ensures env.Follows(flow)
    ensures Honest(|old(env.turns)|, |env.turns|, old(env.trace), env.trace, base, flushed, |bodies|, outcome == Failed)
    ensures outcome == Complete ==> Whole(bodies, carrying, flushed, true) && Intermediates(flushed, true) == records
    ensures outcome != Complete ==> flushed == records
    ensures outcome == TimedOut ==> flow.changed || !CanReserve(flow.peer.sendWindow, flow.stream[..], needs)
    ensures old(env.turns) == [] && Covered(bodies, pivots, old(flow.stream[..]), old(flow.peer.sendWindow)) ==>
              outcome == Complete
  {
    TailsFit(bodies, pivots, carrying);
    RemainingSlices(bodies, pivots, carrying);
    SettleRecord(base, Spent(env.trace), records, bodies, pivots, needs, carrying, true);
    CoveredIsReservable(bodies, pivots, flow.stream[..], flow.peer.sendWindow);
    outcome := ReserveTails(env, flow, needs);
    if outcome != Complete {
      return outcome, records;
    }
    var ok;
    ok, flushed := FlushRelease(env, flow, bodies, carrying, pivots, records, base);
    outcome := if ok then Complete else Failed;
  }

  lemma CoveredIsReservable(bodies: Bodies, pivots: seq<int>, stream: seq<int>, window: int)
    requires |pivots| == |stream| == |bodies|
    ensures Covered(bodies, pivots, stream, window) ==> CanReserve(window, stream, Remaining(bodies, pivots))
  {
    if Covered(bodies, pivots, stream, window) {
      ReservesRemaining(bodies, pivots, stream, window);
    }
  }

  /** If the peer gave nothing meanwhile, windows that covered the bodies cover the tails
      after the prefixes. */
  lemma TailsCovered(start: Balance, t: seq<Entry>, u: seq<Entry>, bodies: Bodies, pivots: seq<int>,
                     records: seq<Record>)
    requires Sound(start, t) && Sound(start, u) && |start.stream| == |bodies| && Moved(bodies, pivots, records, true)
    requires Settled(Spent(t), Spent(u), records, |bodies|) && Given(u) == Given(t)
    requires Covered(bodies, Zeros(|bodies|), Replay(start, t).stream, Replay(start, t).window)
    ensures Covered(bodies, pivots, Replay(start, u).stream, Replay(start, u).window)
  {
    SettledIsAccounted(start, t, u, records, |bodies|);
    GivenIsGained(t, u);
    assert DeliveredSizes(records, |bodies|) == pivots;
    assert Advance(Zeros(|bodies|), pivots) == pivots;
    RemainingShrinks(bodies, Zeros(|bodies|), pivots);
    forall i | 0 <= i < |bodies|
      ensures |bodies[i]| - pivots[i] <= Replay(start, u).stream[i]
    {
      assert StreamGained(u, i) == StreamGained(t, i);
    }
  }

  /** Bodies whose prefixes carry bytes carry bytes themselves. */
  lemma FewerPrefixes(bodies: Bodies, pivots: seq<int>, carrying: seq<int>, listed: seq<int>)
    requires ValidPivots(bodies, pivots) && IsCarrying(bodies, carrying) && IsCarrying(Prefixes(bodies, pivots), listed)
    ensures |listed| <= |carrying|
  {
    DistinctSize(carrying);
    DistinctSize(listed);
    forall v | v in Elements(listed)
      ensures v in Elements(carrying)
    {
      assert |Prefixes(bodies, pivots)[v]| > 0;
      assert v in carrying;
    }
    SubsetSize(Elements(listed), Elements(carrying));
  }

  /** Prefixes first, then the shared release of the tails. */
  method SendWithTail(env: Environment, flow: Flow, bodies: Bodies, carrying: seq<int>, pivots: seq<int>,
                      needs: seq<int>)
    returns (outcome: Outcome, records: seq<Record>)
    requires env.Follows(flow) && |bodies| == |flow.ids| && Representable(bodies) && IsCarrying(bodies, carrying)
    requires |carrying| <= MAX_CARRYING && ValidPivots(bodies, pivots) && Progress(bodies, pivots, true)
    requires needs == Remaining(bodies, pivots) && Sum(AllFrameBytes(needs)) <= RECORD_BUDGET
    modifies env, flow`changed, flow.stream, flow.peer
    ensures env.Follows(flow)
    ensures Honest(|old(env.turns)|, |env.turns|, old(env.trace), env.trace, old(Spent(env.trace)), records, |bodies|,
                   outcome == Failed)
    ensures outcome == Complete ==> Whole(bodies, carrying, records, true)
    ensures outcome != Complete ==> Partial(bodies, records)
    ensures KeptBack(bodies, pivots, outcome == Complete, records)
    ensures outcome == TimedOut && !flow.changed ==>
              && HeldBetween(bodies, pivots, DeliveredSizes(records, |bodies|), BalanceOf(flow))
              && !Covered(bodies, DeliveredSizes(records, |bodies|), flow.stream[..], flow.peer.sendWindow)
    ensures old(env.turns) == [] &&
            Covered(bodies, Zeros(|bodies|), old(flow.stream[..]), old(flow.peer.sendWindow)) ==>
              outcome == Complete
  {
    var prefixes := Prefixes(bodies, pivots);
    ghost var t, covered := env.trace, Covered(bodies, Zeros(|bodies|), flow.stream[..], flow.peer.sendWindow);
    if covered {
      PrefixStarved(bodies, pivots, Zeros(|bodies|), flow.stream[..], flow.peer.sendWindow);
    }
    var listed;
    outcome, records, listed := SendBody(env, flow, prefixes, false);
    FewerPrefixes(bodies, pivots, carrying, listed);
    if outcome != Complete {
      PrefixPartial(bodies, pivots, records);
      PrefixKept(bodies, pivots, records);
      if Covered(bodies, DeliveredSizes(records, |bodies|), flow.stream[..], flow.peer.sendWindow) {
        PrefixStarved(bodies, pivots, DeliveredSizes(records, |bodies|), flow.stream[..], flow.peer.sendWindow);
      }
      return;
    }
    PrefixesMoved(bodies, pivots, listed, records);
    if covered && old(env.turns) == [] {
      TailsCovered(env.start, t, env.trace, bodies, pivots, records);
    }
    outcome, records := DelayAndRelease(env, flow, bodies, carrying, pivots, needs, records, Spent(t));
  }

  /** The bytes from the pivots on are in the last record, and nowhere before it. */
  ghost predicate KeptBack(bodies: Bodies, pivots: seq<int>, released: bool, records: seq<Record>)
    requires ValidPivots(bodies, pivots)
  {
    if released then
      && records != []
      && forall i :: 0 <= i < |bodies| ==>
           && Delivered(records[..|records| - 1], i) == bodies[i][..pivots[i]]
           && PayloadOf(records[|records| - 1], i) == bodies[i][pivots[i]..]
    else forall i :: 0 <= i < |bodies| ==> |Delivered(records, i)| <= pivots[i]
  }

  lemma KeptSoFar(bodies: Bodies, pivots: seq<int>, records: seq<Record>)
    requires ValidPivots(bodies, pivots) && Moved(bodies, pivots, records, true)
    ensures KeptBack(bodies, pivots, false, records)
  {
  }

  lemma TailsComeLast(bodies: Bodies, carrying: seq<int>, pivots: seq<int>, records: seq<Record>, flushed: seq<Record>)
    requires ValidPivots(bodies, pivots) && IsCarrying(bodies, carrying) && Moved(bodies, pivots, records, true)
    requires Whole(bodies, carrying, flushed, true) && Intermediates(flushed, true) == records
    ensures KeptBack(bodies, pivots, true, flushed)
  {
    forall i | 0 <= i < |bodies|
      ensures Delivered(records, i) == bodies[i][..pivots[i]]
      ensures PayloadOf(flushed[|flushed| - 1], i) == bodies[i][pivots[i]..]
    {
      assert Delivered(flushed, i) == Delivered(records, i) + PayloadOf(flushed[|flushed| - 1], i);
    }
  }

  /** The withheld bytes of every body, counted from its end, are released in the last
      record, and no record before it carries any of them. */
  ghost predicate Withholds(bodies: Bodies, withheld: nat, released: bool, records: seq<Record>) {
    (released ==> records != []) &&
    forall i :: 0 <= i < |bodies| ==>
      var kept := |bodies[i]| - Min(withheld, |bodies[i]|);
      if released then
        && Delivered(records[..|records| - 1], i) == bodies[i][..kept]
        && PayloadOf(records[|records| - 1], i) == bodies[i][kept..]
      else |Delivered(records, i)| <= kept
  }

  lemma PivotsWithhold(bodies: Bodies, withheld: nat, released: bool, records: seq<Record>)
    requires withheld > 0 && KeptBack(bodies, Pivots(bodies, withheld), released, records)
    ensures Withholds(bodies, withheld, released, records)
  {
  }

  /** The release delay and then the tails. */
  method DelayAndRelease(env: Environment, flow: Flow, bodies: Bodies, carrying: seq<int>, pivots: seq<int>,
                         needs: seq<int>, records: seq<Record>, ghost base: seq<seq<int>>)
    returns (outcome: Outcome, flushed: seq<Record>)
    requires env.Follows(flow) && |bodies| == |flow.ids| && IsCarrying(bodies, carrying)
    requires Moved(bodies, pivots, records, true) && needs == Remaining(bodies, pivots)
    requires Sum(AllFrameBytes(needs)) <= RECORD_BUDGET && Settled(base, Spent(env.trace), records, |bodies|)
    modifies env, flow`changed, flow.stream, flow.peer
    ensures env.Follows(flow)
    ensures Honest(|old(env.turns)|, |env.turns|, old(env.trace), env.trace, base, flushed, |bodies|, outcome == Failed)
    ensures outcome == Complete ==> Whole(bodies, carrying, flushed, true)
    ensures outcome != Complete ==> Partial(bodies, flushed)
    ensures KeptBack(bodies, pivots, outcome == Complete, flushed)
    ensures outcome == TimedOut && !flow.changed ==>
              && HeldBetween(bodies, pivots, DeliveredSizes(flushed, |bodies|), BalanceOf(flow))
              && !Covered(bodies, DeliveredSizes(flushed, |bodies|), flow.stream[..], flow.peer.sendWindow)
    ensures old(env.turns) == [] && Covered(bodies, pivots, old(flow.stream[..]), old(flow.peer.sendWindow)) ==>
              outcome == Complete
  {
    MovedIsPartial(bodies, pivots, records, true);
    KeptSoFar(bodies, pivots, records);
    var alive := env.Interfere(flow);
    if !alive {
      return Failed, records;
    }
    outcome, flushed := ReleaseTails(env, flow, bodies, carrying, pivots, needs, records, base);
    if outcome == Complete {
      TailsComeLast(bodies, carrying, pivots, records, flushed);
    }
    CoveredIsReservable(bodies, pivots, flow.stream[..], flow.peer.sendWindow);
  }

  /** Where a send with withheld tails can time out: a prefix is unfinished and no byte of
      any can be sent, or all prefixes are out and the tails cannot be reserved. */
  predicate HeldBetween(bodies: Bodies, pivots: seq<int>, sent: seq<int>, b: Balance)
    requires ValidPivots(bodies, pivots) && |sent| == |b.stream| == |bodies|
  {
    || Stalled(Prefixes(bodies, pivots), sent, [], false, b.stream, b.window)
    || (sent == pivots && !CanReserve(b.window, b.stream, Remaining(bodies, pivots)))
  }

  /** Where a send can time out without newer credit. */
  predicate HeldUp(bodies: Bodies, carrying: seq<int>, withheld: nat, sent: seq<int>, b: Balance)
    requires IsCarrying(bodies, carrying) && |sent| == |b.stream| == |bodies|
  {
    if withheld == 0 then Stalled(bodies, sent, carrying, true, b.stream, b.window)
    else HeldBetween(bodies, Pivots(bodies, withheld), sent, b)
  }

  /** The credit given since t did not cover the bodies. */
  ghost predicate GivenTooLittle(bodies: Bodies, t: seq<Entry>, b: Balance, t': seq<Entry>)
    requires |b.stream| == |bodies|
  {
    || Sum(Lengths(bodies)) > b.window + ConnectionGained(t') - ConnectionGained(t)
    || exists i :: 0 <= i < |bodies| && |bodies[i]| > b.stream[i] + StreamGained(t', i) - StreamGained(t, i)
  }

  /** A send that is held up has used all credit: for the bodies, for their prefixes, or
      else the credit does not cover the bodies. */
  ghost predicate AllUsed(bodies: Bodies, withheld: nat, sent: seq<int>, t: seq<Entry>, b: Balance, t': seq<Entry>)
    requires |sent| == |b.stream| == |bodies|
  {
    if withheld == 0 then CreditUsed(bodies, true, sent, t, b, t')
    else
      CreditUsed(Prefixes(bodies, Pivots(bodies, withheld)), false, sent, t, b, t') || GivenTooLittle(bodies, t, b, t')
  }

  lemma HeldUpMeansUsed(bodies: Bodies, carrying: seq<int>, withheld: nat, sent: seq<int>,
                        t: seq<Entry>, b: Balance, t': seq<Entry>, b': Balance)
    requires IsCarrying(bodies, carrying) && Accounted(t, b, t', b', sent) && |sent| == |bodies| && b'.window >= 0
    requires HeldUp(bodies, carrying, withheld, sent, b')
    ensures AllUsed(bodies, withheld, sent, t, b, t')
  {
    if withheld == 0 {
      StalledMeansUsed(bodies, true, sent, t, b, t', b');
    } else {
      var pivots := Pivots(bodies, withheld);
      if Stalled(Prefixes(bodies, pivots), sent, [], false, b'.stream, b'.window) {
        StalledMeansUsed(Prefixes(bodies, pivots), false, sent, t, b, t', b');
      } else {
        TailsMeanTooLittle(bodies, pivots, t, b, t', b');
      }
    }
  }

  lemma TailsMeanTooLittle(bodies: Bodies, pivots: seq<int>, t: seq<Entry>, b: Balance, t': seq<Entry>, b': Balance)
    requires ValidPivots(bodies, pivots) && Accounted(t, b, t', b', pivots) && |b.stream| == |bodies|
    requires !CanReserve(b'.window, b'.stream, Remaining(bodies, pivots))
    ensures GivenTooLittle(bodies, t, b, t')
  {
    assert Advance(Zeros(|bodies|), pivots) == pivots;
    RemainingShrinks(bodies, Zeros(|bodies|), pivots);
    AllRemains(bodies);
  }

  /** The tails of this length fit one record. */
  predicate TailsFitOne(bodies: Bodies, withheld: int)
    requires withheld > 0
  {
    Sum(AllFrameBytes(Remaining(bodies, Pivots(bodies, withheld)))) <= RECORD_BUDGET
  }

  /** The batch is refused before anything is sent. */
  predicate Refused(bodies: Bodies, carrying: seq<int>, withheld: int) {
    |carrying| > MAX_CARRYING || (withheld > 0 && carrying != [] && !TailsFitOne(bodies, withheld))
  }

  /** What a send that was not refused comes to, from the balance b and the account t to
      the balance b' and the account t'. On success every body is delivered, no record
      exceeds one TLS record, and the last record alone ends streams: all of them, each
      with body bytes. Otherwise only unfinished prefixes were flushed. The withheld bytes
      of every body are in the last record alone. Every record was
      covered by the windows when it was debited; unless the send failed, the windows are
      what they were, plus what the peer gave, minus the bytes sent. It times out only if
      no byte could be sent, all credit being used, or newer credit came too late. */
  ghost predicate SendOk(bodies: Bodies, carrying: seq<int>, withheld: nat, start: Balance, was: nat, t: seq<Entry>,
                         b: Balance, now: nat, t': seq<Entry>, b': Balance, changed: bool,
                         outcome: Outcome, records: seq<Record>)
    requires IsCarrying(bodies, carrying) && |b.stream| == |b'.stream| == |bodies|
  {
    var sent := DeliveredSizes(records, |bodies|);
    && Honest(was, now, t, t', Spent(t), records, |bodies|, outcome == Failed)
    && (if outcome == Complete then Finished(bodies, carrying, records, true) else Partial(bodies, records))
    && (withheld > 0 && carrying != [] ==> Withholds(bodies, withheld, outcome == Complete, records))
    && (outcome != Failed ==> Accounted(t, b, t', b', sent))
    && (outcome == TimedOut && !changed ==>
          && HeldUp(bodies, carrying, withheld, sent, b') && !Covered(bodies, sent, b'.stream, b'.window)
          && AllUsed(bodies, withheld, sent, t, b, t'))
    && (withheld == 0 ==>
          AllPlanned(bodies, carrying, true, Intermediates(records, outcome == Complete), Spent(t), start, t'))
    && (was == 0 && Covered(bodies, Zeros(|bodies|), b.stream, b.window) ==> outcome == Complete)
  }

  lemma SendIsOk(bodies: Bodies, carrying: seq<int>, withheld: nat, start: Balance, was: nat, t: seq<Entry>, now: nat,
                 t': seq<Entry>, changed: bool, outcome: Outcome, records: seq<Record>)
    requires IsCarrying(bodies, carrying) && |start.stream| == |bodies| && Sound(start, t) && Sound(start, t')
    requires Replay(start, t').window >= 0 && Honest(was, now, t, t', Spent(t), records, |bodies|, outcome == Failed)
    requires if outcome == Complete then Finished(bodies, carrying, records, true) else Partial(bodies, records)
    requires withheld > 0 && carrying != [] ==> Withholds(bodies, withheld, outcome == Complete, records)
    requires outcome == TimedOut && !changed ==>
               && HeldUp(bodies, carrying, withheld, DeliveredSizes(records, |bodies|), Replay(start, t'))
               && !Covered(bodies, DeliveredSizes(records, |bodies|), Replay(start, t').stream,
                           Replay(start, t').window)
    requires withheld == 0 ==>
               AllPlanned(bodies, carrying, true, Intermediates(records, outcome == Complete), Spent(t), start, t')
    requires was == 0 && Covered(bodies, Zeros(|bodies|), Replay(start, t).stream, Replay(start, t).window) ==>
               outcome == Complete
    ensures SendOk(bodies, carrying, withheld, start, was, t, Replay(start, t), now, t', Replay(start, t'), changed,
                   outcome, records)
  {
    if outcome != Failed {
      SettledIsAccounted(start, t, t', records, |bodies|);
    }
    if outcome == TimedOut && !changed {
      HeldUpMeansUsed(bodies, carrying, withheld, DeliveredSizes(records, |bodies|), t, Replay(start, t), t',
                      Replay(start, t'));
    }
  }

  /** Sends the bodies of a batch. It is refused before anything is sent if too many
      streams carry bytes or the withheld tails exceed one record, and otherwise fails
      only if ended from outside. */
  method SendWithBody(env: Environment, flow: Flow, bodies: Bodies, withheld: nat)
    returns (outcome: Outcome, records: seq<Record>, carrying: seq<int>)
    requires env.Follows(flow) && |bodies| == |flow.ids| && Representable(bodies)
    modifies env, flow`changed, flow.stream, flow.peer
    ensures env.Follows(flow) && IsCarrying(bodies, carrying)
    ensures Refused(bodies, carrying, withheld) ==> outcome == Failed && records == [] && env.trace == old(env.trace)
    ensures !Refused(bodies, carrying, withheld) ==>
              SendOk(bodies, carrying, withheld, env.start, |old(env.turns)|, old(env.trace), old(BalanceOf(flow)),
                     |env.turns|, env.trace, BalanceOf(flow), flow.changed, outcome, records)
  {
    carrying := CollectCarrying(bodies);
    if |carrying| > MAX_CARRYING {
      return Failed, [], carrying;
    }
    if withheld == 0 || carrying == [] {
      ghost var listed := carrying;
      outcome, records, carrying := SendUnwithheld(env, flow, bodies, withheld);
      SameSize(bodies, listed, carrying);
    } else {
      var pivots := Pivots(bodies, withheld);
      var needs := TailReleaseNeeds(bodies, pivots);
      if needs.None? {
        return Failed, [], carrying;
      }
      outcome, records := SendWithheld(env, flow, bodies, carrying, withheld, needs.value);
    }
  }

  /** Nothing is withheld. */
  method SendUnwithheld(env: Environment, flow: Flow, bodies: Bodies, ghost withheld: nat)
    returns (outcome: Outcome, records: seq<Record>, carrying: seq<int>)
    requires env.Follows(flow) && |bodies| == |flow.ids| && Representable(bodies)
    modifies env, flow`changed, flow.stream, flow.peer
    ensures env.Follows(flow) && IsCarrying(bodies, carrying)
    ensures |carrying| <= MAX_CARRYING && (withheld == 0 || carrying == []) ==>
              SendOk(bodies, carrying, withheld, env.start, |old(env.turns)|, old(env.trace), old(BalanceOf(flow)),
                     |env.turns|, env.trace, BalanceOf(flow), flow.changed, outcome, records)
  {
    outcome, records, carrying := SendBody(env, flow, bodies, true);
    if |carrying| <= MAX_CARRYING && (withheld == 0 || carrying == []) {
      SendIsOk(bodies, carrying, withheld, env.start, |old(env.turns)|, old(env.trace), |env.turns|, env.trace,
               flow.changed, outcome, records);
    }
  }

  /** The last bytes of every body are withheld. */
  method SendWithheld(env: Environment, flow: Flow, bodies: Bodies, carrying: seq<int>, withheld: nat, needs: seq<int>)
    returns (outcome: Outcome, records: seq<Record>)
    requires env.Follows(flow) && |bodies| == |flow.ids| && Representable(bodies) && IsCarrying(bodies, carrying)
    requires 0 < |carrying| <= MAX_CARRYING && withheld > 0
    requires needs == Remaining(bodies, Pivots(bodies, withheld)) && Sum(AllFrameBytes(needs)) <= RECORD_BUDGET
    modifies env, flow`changed, flow.stream, flow.peer
    ensures env.Follows(flow)
    ensures SendOk(bodies, carrying, withheld, env.start, |old(env.turns)|, old(env.trace), old(BalanceOf(flow)),
                   |env.turns|, env.trace, BalanceOf(flow), flow.changed, outcome, records)
  {
    outcome, records := SendWithTail(env, flow, bodies, carrying, Pivots(bodies, withheld), needs);
    PivotsWithhold(bodies, withheld, outcome == Complete, records);
    SendIsOk(bodies, carrying, withheld, env.start, |old(env.turns)|, old(env.trace), |env.turns|, env.trace,
             flow.changed, outcome, records);
  }

  lemma SameSize(bodies: Bodies, carrying: seq<int>, listed: seq<int>)
    requires IsCarrying(bodies, carrying) && IsCarrying(bodies, listed)
    ensures |listed| == |carrying|
  {
    DistinctSize(carrying);
    DistinctSize(listed);
    forall v
      ensures v in Elements(listed) <==> v in Elements(carrying)
    {
      assert v in Elements(listed) ==> v in carrying;
      assert v in Elements(carrying) ==> v in listed;
    }
    assert Elements(listed) == Elements(carrying);
  }
}
