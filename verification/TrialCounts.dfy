/** What the evidence of a list of trials is: how many of them had each fact. */
module TrialCounts {
  import opened MapTotals
  import opened BatchResult
  import opened Tally
  import opened Counts
  import opened Measurement

  /** A fact that a complete trial has or has not. */
  datatype Fact =
    | RankOf(request: nat, rank: int)
    | RankAt(position: nat, rank: int)
    | Placement(request: nat, position: nat)
    | Precedes(left: nat, right: nat)
    | StatusOf(request: nat, code: int)

  ghost predicate Has(t: Observation, f: Fact, n: nat)
    requires ValidTrial(t, n)
  {
    match f
    case RankOf(i, r) => i < n && t.batch.replies[i].rank == r
    case RankAt(p, r) => p < n && t.batch.replies[t.arrangement[p]].rank == r
    case Placement(i, p) => p < n && t.arrangement[p] == i
    case Precedes(l, r) => l < n && r < n && t.batch.replies[l].rank < t.batch.replies[r].rank
    case StatusOf(i, code) => i < n && t.statuses[i] == code
  }

  ghost predicate AllValid(ts: seq<Observation>, n: nat) { forall k :: 0 <= k < |ts| ==> ValidTrial(ts[k], n) }

  ghost function One(t: Observation, f: Fact, n: nat): int
    requires ValidTrial(t, n)
  {
    if Has(t, f, n) then 1 else 0
  }

  ghost function Count(ts: seq<Observation>, f: Fact, n: nat): int
    requires AllValid(ts, n)
  {
    if ts == [] then 0 else Count(ts[..|ts| - 1], f, n) + One(ts[|ts| - 1], f, n)
  }

  lemma CountAppend(ts: seq<Observation>, t: Observation, f: Fact, n: nat)
    requires AllValid(ts, n) && ValidTrial(t, n)
    ensures AllValid(ts + [t], n) && Count(ts + [t], f, n) == Count(ts, f, n) + One(t, f, n)
  {
    assert (ts + [t])[..|ts|] == ts;
  }

  lemma {:induction false} CountConcat(ts: seq<Observation>, us: seq<Observation>, f: Fact, n: nat)
    requires AllValid(ts, n) && AllValid(us, n)
    ensures AllValid(ts + us, n) && Count(ts + us, f, n) == Count(ts, f, n) + Count(us, f, n)
  {
    if us == [] {
      assert ts + us == ts;
    } else {
      var m := |us| - 1;
      CountConcat(ts, us[..m], f, n);
      assert (ts + us)[..|ts + us| - 1] == ts + us[..m];
    }
  }

  /** The value of the evidence for a fact. */
  ghost function Recorded(e: Evidence, f: Fact, n: nat): int
    requires Sized(e, n)
  {
    match f
    case RankOf(i, r) => if i < n && 0 <= r < n then e.ranks[i][r] else 0
    case RankAt(p, r) => if p < n && 0 <= r < n then e.positions[p][r] else 0
    case Placement(i, p) => if i < n && p < n then e.assignments[i][p] else 0
    case Precedes(l, r) => if l < n && r < n then e.pairwise[l][r] else 0
    case StatusOf(i, code) => if i < n then At(e.statuses[i], code) else 0
  }

  predicate Sized(e: Evidence, n: nat) {
    Square(e.ranks, n) && Square(e.positions, n) && Square(e.assignments, n) && Square(e.pairwise, n) &&
    |e.statuses| == n
  }

  /** The evidence is the count of every fact over exactly these trials. */
  ghost predicate Totals(e: Evidence, ts: seq<Observation>, n: nat) {
    Sized(e, n) && AllValid(ts, n) && forall f :: Recorded(e, f, n) == Count(ts, f, n)
  }

  /** after is e with one trial counted. */
  ghost predicate Tallied(e: Evidence, t: Observation, n: nat, after: Evidence)
    requires ValidTrial(t, n)
  {
    && Incremented(e.ranks, Ranks(t.batch), n, after.ranks)
    && Incremented(e.positions, ByPosition(Ranks(t.batch), t.arrangement), n, after.positions)
    && Placed(e.assignments, t.arrangement, n, after.assignments)
    && Preceded(e.pairwise, Ranks(t.batch), n, after.pairwise)
    && |e.statuses| == |after.statuses| == n
    && forall i, k :: 0 <= i < n ==>
         At(after.statuses[i], k) == At(e.statuses[i], k) + if t.statuses[i] == k then 1 else 0
  }

  lemma TallyFact(e: Evidence, t: Observation, n: nat, after: Evidence, f: Fact)
    requires ValidTrial(t, n) && Tallied(e, t, n, after)
    ensures Sized(e, n) && Sized(after, n) && Recorded(after, f, n) == Recorded(e, f, n) + One(t, f, n)
  {
    FullRanksArePerm(t.batch);
    match f
    case RankOf(i, r) =>
    case RankAt(p, r) =>
    case Placement(i, p) =>
      if i < n && p < n {
        assert after.assignments[i][p] == e.assignments[i][p] + Here(t.arrangement, i, p);
      }
    case Precedes(l, r) =>
      if l < n && r < n {
        assert after.pairwise[l][r] == e.pairwise[l][r] + Before(Ranks(t.batch), l, r);
      }
    case StatusOf(i, code) =>
  }

  lemma TallyTotals(e: Evidence, t: Observation, n: nat, after: Evidence, ts: seq<Observation>)
    requires ValidTrial(t, n) && Tallied(e, t, n, after) && Totals(e, ts, n)
    ensures Totals(after, ts + [t], n)
  {
    forall f
      ensures Sized(after, n) && AllValid(ts + [t], n) && Recorded(after, f, n) == Count(ts + [t], f, n)
    {
      TallyFact(e, t, n, after, f);
      CountAppend(ts, t, f, n);
      assert Recorded(e, f, n) == Count(ts, f, n);
    }
    TallyFact(e, t, n, after, RankOf(0, 0));
  }

  /** c is a and b together. */
  ghost predicate Joined(a: Evidence, b: Evidence, n: nat, c: Evidence) {
    && Added(a.ranks, b.ranks, n, c.ranks) && Added(a.positions, b.positions, n, c.positions)
    && Added(a.assignments, b.assignments, n, c.assignments) && Added(a.pairwise, b.pairwise, n, c.pairwise)
    && |a.statuses| == |b.statuses| == |c.statuses| == n
    && forall i, k :: 0 <= i < n ==> At(c.statuses[i], k) == At(a.statuses[i], k) + At(b.statuses[i], k)
  }

  lemma JoinTotals(a: Evidence, b: Evidence, n: nat, c: Evidence, ts: seq<Observation>, us: seq<Observation>)
    requires Joined(a, b, n, c) && Totals(a, ts, n) && Totals(b, us, n)
    ensures Totals(c, ts + us, n)
  {
    forall f
      ensures AllValid(ts + us, n) && Recorded(c, f, n) == Count(ts + us, f, n)
    {
      CountConcat(ts, us, f, n);
      assert Recorded(a, f, n) == Count(ts, f, n) && Recorded(b, f, n) == Count(us, f, n);
    }
    CountConcat(ts, us, RankOf(0, 0), n);
  }

  lemma NothingTotals(n: nat)
    ensures Totals(NoEvidence(n), [], n)
  {
  }
}
