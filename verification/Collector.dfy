/** Collects the trials of a measure run, cycle by cycle, into reconciled evidence. */
module Collector {
  import opened MapTotals
  import opened Perms
  import opened Arrangement
  import opened Tally
  import opened Counts
  import opened Measurement
  import opened TrialCounts

  // ------------------------------------------------------------------ one cycle

  ghost predicate CycleShape(c: Cycle, n: nat) {
    && 1 <= c.received <= n && c.completeTrials <= c.received && Consistent(c.evidence, n, c.completeTrials)
    && c.shifts <= Below(n)
    && (!c.incomplete ==> |c.shifts| == c.received == c.completeTrials)
  }

  /** The shifts of a rotation of base that put request i in position p. */
  ghost function ShiftsWith(base: seq<int>, shifts: set<int>, i: int, p: nat): set<int>
    requires p < |base|
  {
    set s: int | s in shifts && s >= 0 && Rotated(base, s)[p] == i
  }

  /** The assignments counted are those of the rotations received. */
  ghost predicate Rotating(c: Cycle, base: seq<int>, n: nat) {
    |base| == n && !c.incomplete ==>
      Square(c.evidence.assignments, n) &&
      forall i, p: nat :: 0 <= i < n && p < n ==> c.evidence.assignments[i][p] == |ShiftsWith(base, c.shifts, i, p)|
  }

  lemma OneMoreShift(base: seq<int>, shifts: set<int>, shift: nat, i: int, p: nat)
    requires p < |base| && shift !in shifts
    ensures |ShiftsWith(base, shifts + {shift}, i, p)| == |ShiftsWith(base, shifts, i, p)| +
            Here(Rotated(base, shift), i, p)
  {
    var before, after := ShiftsWith(base, shifts, i, p), ShiftsWith(base, shifts + {shift}, i, p);
    if Rotated(base, shift)[p] == i {
      assert after == before + {shift};
    } else {
      assert after == before;
    }
  }

  lemma RotationPlaced(before: Matrix, base: seq<int>, shifts: set<int>, shift: nat, n: nat, after: Matrix)
    requires |base| == n && shift !in shifts && Placed(before, Rotated(base, shift), n, after)
    requires forall i, p: nat :: 0 <= i < n && p < n ==> before[i][p] == |ShiftsWith(base, shifts, i, p)|
    ensures forall i, p: nat :: 0 <= i < n && p < n ==> after[i][p] == |ShiftsWith(base, shifts + {shift}, i, p)|
  {
    forall i, p: nat | 0 <= i < n && p < n
      ensures after[i][p] == |ShiftsWith(base, shifts + {shift}, i, p)|
    {
      OneMoreShift(base, shifts, shift, i, p);
      assert after[i][p] == before[i][p] + Here(Rotated(base, shift), i, p);
    }
  }

  /** Over all shifts every request is in every position once. */
  lemma FullRotation(base: seq<int>, i: nat, p: nat)
    requires IsPerm(base) && i < |base| && p < |base|
    ensures |ShiftsWith(base, Below(|base|), i, p)| == 1
  {
    LatinSquare(base, p, i);
    var s: nat :| s < |base| && Rotated(base, s)[p] == i;
    assert ShiftsWith(base, Below(|base|), i, p) == {s};
  }

  function NewCycle(n: nat): Cycle { Cycle(0, 0, false, {}, NoEvidence(n)) }

  /** What the driver promises of a rank-complete trial under rotation. */
  ghost predicate FollowsRotation(t: Observation, base: seq<int>, n: nat) {
    |base| == n && IsPerm(base) && (0 <= t.shift < n && !t.failed ==> t.arrangement == Rotated(base, t.shift))
  }

  predicate LegalShift(c: Cycle, t: Observation, n: nat) { 0 <= t.shift < n && t.shift !in c.shifts }

  /** after is c with trial t recorded. */
  ghost predicate Advanced(c: Cycle, t: Observation, n: nat, after: Cycle) {
    && after.received == c.received + 1
    && after.completeTrials == c.completeTrials + (if t.failed then 0 else 1)
    && after.incomplete == (c.incomplete || !LegalShift(c, t, n) || t.failed)
    && after.shifts == (if LegalShift(c, t, n) then c.shifts + {t.shift} else c.shifts)
    && Consistent(after.evidence, n, after.completeTrials)
    && (if t.failed then after.evidence == c.evidence
        else ValidTrial(t, n) && Tallied(c.evidence, t, n, after.evidence))
  }

  lemma AdvancedShape(c: Cycle, t: Observation, n: nat, after: Cycle)
    requires (c == NewCycle(n) || CycleShape(c, n)) && c.received < n && Advanced(c, t, n, after)
    ensures CycleShape(after, n)
  {
    assert LegalShift(c, t, n) ==> |c.shifts + {t.shift}| == |c.shifts| + 1;
  }

  lemma AdvancedRotates(c: Cycle, t: Observation, n: nat, after: Cycle, base: seq<int>)
    requires Advanced(c, t, n, after) && Rotating(c, base, n) && FollowsRotation(t, base, n)
    ensures Rotating(after, base, n)
  {
    if !after.incomplete {
      RotationPlaced(c.evidence.assignments, base, c.shifts, t.shift, n, after.evidence.assignments);
    }
  }

  /** Records one trial in its cycle. */
  method Advance(c: Cycle, t: Observation, n: nat) returns (after: Cycle)
    requires Consistent(c.evidence, n, c.completeTrials) && (!t.failed ==> ValidTrial(t, n))
    ensures Advanced(c, t, n, after)
  {
    var evidence, completeTrials := c.evidence, c.completeTrials;
    var received, incomplete, shifts := c.received + 1, c.incomplete, c.shifts;
    if t.shift < 0 || t.shift >= n || t.shift in shifts {
      incomplete := true;
    } else {
      shifts := shifts + {t.shift};
    }
    if !t.failed {
      evidence := TallyTrial(evidence, t, n, completeTrials);
      completeTrials := completeTrials + 1;
    } else {
      incomplete := true;
    }
    after := Cycle(received, completeTrials, incomplete, shifts, evidence);
  }

  // -------------------------------------------------- a cycle and its trials

  /** The complete ones among the trials. */
  function Finished(ts: seq<Observation>): (r: seq<Observation>)
    ensures |r| <= |ts|
  {
    if ts == [] then []
    else Finished(ts[..|ts| - 1]) + if ts[|ts| - 1].failed then [] else [ts[|ts| - 1]]
  }

  /** The legal shifts among the trials. */
  function ShiftsOf(ts: seq<Observation>, n: nat): set<int> {
    if ts == [] then {}
    else
      var shift := ts[|ts| - 1].shift;
      ShiftsOf(ts[..|ts| - 1], n) + if 0 <= shift < n then {shift} else {}
  }

  /** Some trial failed, or has a shift that is illegal or repeated. */
  predicate Spoilt(ts: seq<Observation>, n: nat) {
    ts != [] &&
    (var front, t := ts[..|ts| - 1], ts[|ts| - 1];
     Spoilt(front, n) || t.failed || !(0 <= t.shift < n) || t.shift in ShiftsOf(front, n))
  }

  /** The cycle is what these trials make of it: its evidence counts exactly the complete
      ones. */
  ghost predicate CycleTells(c: Cycle, ts: seq<Observation>, n: nat) {
    && c.received == |ts| && c.completeTrials == |Finished(ts)|
    && c.shifts == ShiftsOf(ts, n) && c.incomplete == Spoilt(ts, n)
    && Totals(c.evidence, Finished(ts), n)
  }

  lemma AdvancedTells(c: Cycle, t: Observation, n: nat, after: Cycle, ts: seq<Observation>)
    requires Advanced(c, t, n, after) && CycleTells(c, ts, n)
    ensures CycleTells(after, ts + [t], n)
  {
    assert (ts + [t])[..|ts|] == ts;
    if t.failed {
      assert Finished(ts + [t]) == Finished(ts);
    } else {
      TallyTotals(c.evidence, t, n, after.evidence, Finished(ts));
    }
  }

  lemma NewCycleTells(n: nat)
    ensures CycleTells(NewCycle(n), [], n)
  {
    NothingTotals(n);
  }

  lemma {:induction false} UnspoiltIsFinished(ts: seq<Observation>, n: nat)
    requires !Spoilt(ts, n)
    ensures Finished(ts) == ts
  {
    if ts != [] {
      UnspoiltIsFinished(ts[..|ts| - 1], n);
    }
  }

  lemma NewCycleRotates(n: nat, base: seq<int>)
    ensures Rotating(NewCycle(n), base, n)
  {
    if |base| == n {
      forall i, p: nat | 0 <= i < n && p < n
        ensures ShiftsWith(base, {}, i, p) == {}
      {
      }
    }
  }

  // ------------------------------------------------------------------- the cycles

  ghost function CompleteOf(cycles: map<int, Cycle>): Histogram { map id | id in cycles :: cycles[id].completeTrials }

  ghost predicate CyclesOpen(cycles: map<int, Cycle>, n: nat) {
    forall id :: id in cycles ==> CycleShape(cycles[id], n) && cycles[id].received < n
  }

  ghost predicate AllRotating(cycles: map<int, Cycle>, bases: map<int, seq<int>>, n: nat) {
    forall id :: id in cycles ==>
      id in bases && |bases[id]| == n && IsPerm(bases[id]) && Rotating(cycles[id], bases[id], n)
  }

  lemma CompleteWithout(cycles: map<int, Cycle>, id: int)
    requires id in cycles
    ensures Total(CompleteOf(cycles)) == cycles[id].completeTrials + Total(CompleteOf(cycles - {id}))
  {
    TotalWithout(CompleteOf(cycles), id);
    assert CompleteOf(cycles) - {id} == CompleteOf(cycles - {id});
  }

  lemma CompleteUpdate(cycles: map<int, Cycle>, id: int, c: Cycle)
    ensures Total(CompleteOf(cycles[id := c])) ==
            Total(CompleteOf(cycles)) + c.completeTrials - if id in cycles then cycles[id].completeTrials else 0
  {
    TotalUpdate(CompleteOf(cycles), id, c.completeTrials);
    assert CompleteOf(cycles[id := c]) == CompleteOf(cycles)[id := c.completeTrials];
  }

  /** A cycle is committed exactly if it is whole: every shift once, no trial failed. */
  predicate Whole(c: Cycle, n: nat) {
    c.received == n && c.completeTrials == n && |c.shifts| == n && !c.incomplete
  }

  ghost predicate Uniform(m: Matrix, n: nat, k: int) {
    Square(m, n) && forall i, p :: 0 <= i < n && 0 <= p < n ==> m[i][p] == k
  }

  lemma WholeIsUniform(c: Cycle, base: seq<int>, n: nat)
    requires CycleShape(c, n) && Whole(c, n) && |base| == n && IsPerm(base) && Rotating(c, base, n)
    ensures Uniform(c.evidence.assignments, n, 1)
  {
    BelowSize(n);
    SubsetOfEqualSize(c.shifts, Below(n));
    forall i, p: nat | 0 <= i < n && p < n
      ensures c.evidence.assignments[i][p] == 1
    {
      FullRotation(base, i, p);
    }
  }

  lemma UniformAdds(a: Matrix, b: Matrix, n: nat, c: Matrix, s: int, t: int)
    requires Uniform(a, n, s) && Uniform(b, n, t) && Added(a, b, n, c)
    ensures Uniform(c, n, s + t)
  {
  }

  /** A cycle is whole exactly if it has all its trials and none spoilt it. */
  lemma {:induction false} WholeTells(c: Cycle, ts: seq<Observation>, n: nat)
    requires CycleShape(c, n) && CycleTells(c, ts, n)
    ensures Whole(c, n) <==> |ts| == n && !Spoilt(ts, n)
    ensures Whole(c, n) ==> Finished(ts) == ts
  {
    if !Spoilt(ts, n) {
      UnspoiltIsFinished(ts, n);
    }
  }
}
