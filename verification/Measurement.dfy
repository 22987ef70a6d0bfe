/** The descriptive record of a measure run. Under rotation the evidence of a cycle is
    committed only when the whole cycle is complete. */
module Measurement {
  import opened MapTotals
  import opened Sequences
  import opened Perms
  import opened BatchResult
  import opened Tally
  import opened Counts

  datatype Observation =
    Observation(warmup: bool, failed: bool, cycle: int, shift: int, arrangement: seq<int>,
                batch: Batch, statuses: seq<int>)

  /** shifts are the distinct legal shifts received. */
  datatype Cycle = Cycle(received: nat, completeTrials: nat, incomplete: bool, shifts: set<int>, evidence: Evidence)

  // ------------------------------------------------------------------ validation

  ghost predicate ValidTrial(t: Observation, n: nat) {
    && |t.batch.replies| == n && |t.arrangement| == n && |t.statuses| == n && IsPerm(t.arrangement)
    && AllArrived(t.batch) && |t.batch.order| == n && Inverse(t.batch)
    && forall i :: 0 <= i < n ==> 100 <= t.statuses[i] <= 999
  }

  /** Whether the arrangement names every request once. */
  method CheckArrangement(arrangement: seq<int>) returns (ok: bool)
    ensures ok <==> IsPerm(arrangement)
  {
    var n := |arrangement|;
    var seen := new bool[n](_ => false);
    for p := 0 to n
      invariant forall v :: 0 <= v < n ==> (seen[v] <==> v in arrangement[..p])
      invariant forall q :: 0 <= q < p ==> 0 <= arrangement[q] < n
      invariant Distinct(arrangement[..p])
    {
      var request := arrangement[p];
      if request < 0 || request >= n || seen[request] {
        Repeated(arrangement, p);
        return false;
      }
      seen[request] := true;
      assert arrangement[..p + 1] == arrangement[..p] + [request];
    }
    assert arrangement[..n] == arrangement;
    ok := true;
  }

  lemma Repeated(arrangement: seq<int>, p: nat)
    requires p < |arrangement|
    requires arrangement[p] < 0 || arrangement[p] >= |arrangement| || arrangement[p] in arrangement[..p]
    ensures !IsPerm(arrangement)
  {
    if arrangement[p] in arrangement[..p] {
      var q :| 0 <= q < p && arrangement[..p][q] == arrangement[p];
      assert arrangement[q] == arrangement[p];
    }
  }

  /** The collector's own check of a rank-complete trial. */
  method Validate(t: Observation, n: nat) returns (ok: bool)
    requires |t.statuses| == |t.batch.replies|
    ensures ok <==> ValidTrial(t, n)
  {
    if |t.batch.replies| != n || |t.arrangement| != n {
      return false;
    }
    var full := FullArrivalOrder(t.batch);
    if !full {
      return false;
    }
    for i := 0 to n
      invariant forall k :: 0 <= k < i ==> 100 <= t.statuses[k] <= 999
    {
      if t.statuses[i] < 100 || t.statuses[i] > 999 {
        return false;
      }
    }
    ok := CheckArrangement(t.arrangement);
  }

  // ----------------------------------------------------------------- one trial

  /** assignments gains one at (request, position) for each position. */
  predicate Placed(m: Matrix, arrangement: seq<int>, n: nat, after: Matrix) {
    && Square(m, n) && Square(after, n) && |arrangement| == n
    && forall i, p :: 0 <= i < n && 0 <= p < n ==> after[i][p] == m[i][p] + Here(arrangement, i, p)
  }

  function Here(arrangement: seq<int>, i: int, p: nat): int
    requires p < |arrangement|
  {
    if arrangement[p] == i then 1 else 0
  }

  method Place(m: Matrix, arrangement: seq<int>, n: nat) returns (after: Matrix)
    requires Square(m, n) && |arrangement| == n && IsPerm(arrangement)
    ensures Placed(m, arrangement, n, after)
  {
    after := m;
    for p := 0 to n
      invariant Square(after, n)
      invariant forall i, q :: 0 <= i < n && 0 <= q < n ==>
                  after[i][q] == m[i][q] + if q < p then Here(arrangement, i, q) else 0
    {
      var request := arrangement[p];
      after := after[request := after[request][p := after[request][p] + 1]];
    }
  }

  lemma RowGains(m: Matrix, arrangement: seq<int>, n: nat, after: Matrix, i: nat)
    requires Placed(m, arrangement, n, after) && IsPerm(arrangement) && i < n
    ensures Sum(after[i]) == Sum(m[i]) + 1
  {
    var p := PermIndex(arrangement, i);
    forall q | 0 <= q < n
      ensures after[i][q] == m[i][p := m[i][p] + 1][q]
    {
      assert after[i][q] == m[i][q] + Here(arrangement, i, q);
    }
    assert after[i] == m[i][p := m[i][p] + 1];
    SumUpdate(m[i], p, m[i][p] + 1);
  }

  lemma PlaceColumnGains(m: Matrix, arrangement: seq<int>, n: nat, after: Matrix, p: nat)
    requires Placed(m, arrangement, n, after) && IsPerm(arrangement) && p < n
    ensures Sum(Column(after, n, p)) == Sum(Column(m, n, p)) + 1
  {
    var c, i := Column(m, n, p), arrangement[p];
    forall k | 0 <= k < n
      ensures Column(after, n, p)[k] == c[i := c[i] + 1][k]
    {
      assert after[k][p] == m[k][p] + Here(arrangement, k, p);
    }
    assert Column(after, n, p) == c[i := c[i] + 1];
    SumUpdate(c, i, c[i] + 1);
  }

  lemma PlacedBalanced(m: Matrix, arrangement: seq<int>, n: nat, after: Matrix, t: int)
    requires Balanced(m, n, t) && Placed(m, arrangement, n, after) && IsPerm(arrangement)
    ensures Balanced(after, n, t + 1)
  {
    forall i | 0 <= i < n
      ensures Sum(after[i]) == t + 1
    {
      RowGains(m, arrangement, n, after, i);
    }
    forall p: nat | p < n
      ensures Sum(Column(after, n, p)) == t + 1
    {
      PlaceColumnGains(m, arrangement, n, after, p);
    }
  }

  method CountStatuses(statuses: seq<Histogram>, codes: seq<int>, n: nat, ghost t: int) returns (after: seq<Histogram>)
    requires StatusesOk(statuses, n, t) && |codes| == n
    ensures StatusesOk(after, n, t + 1)
    ensures forall i, k :: 0 <= i < n ==> At(after[i], k) == At(statuses[i], k) + if codes[i] == k then 1 else 0
  {
    after := statuses;
    for i := 0 to n
      invariant |after| == n
      invariant forall j :: i <= j < n ==> after[j] == statuses[j]
      invariant forall j :: 0 <= j < i ==> Total(after[j]) == t + 1
      invariant forall j, k :: 0 <= j < i ==> At(after[j], k) == At(statuses[j], k) + if codes[j] == k then 1 else 0
    {
      TotalUpdate(after[i], codes[i], At(after[i], codes[i]) + 1);
      after := after[i := after[i][codes[i] := At(after[i], codes[i]) + 1]];
    }
  }

  /** Folds one valid trial into the evidence. */
  method TallyTrial(e: Evidence, trial: Observation, n: nat, ghost t: int) returns (after: Evidence)
    requires Consistent(e, n, t) && ValidTrial(trial, n)
    ensures Consistent(after, n, t + 1)
    ensures Incremented(e.ranks, Ranks(trial.batch), n, after.ranks)
    ensures Incremented(e.positions, ByPosition(Ranks(trial.batch), trial.arrangement), n, after.positions)
    ensures Placed(e.assignments, trial.arrangement, n, after.assignments)
    ensures Preceded(e.pairwise, Ranks(trial.batch), n, after.pairwise)
    ensures forall i, k :: 0 <= i < n ==>
              At(after.statuses[i], k) == At(e.statuses[i], k) + if trial.statuses[i] == k then 1 else 0
  {
    FullRanksArePerm(trial.batch);
    var ranks := Ranks(trial.batch);
    var byPosition := ByPosition(ranks, trial.arrangement);
    ByPositionIsPerm(ranks, trial.arrangement);
    var r := AddRanks(e.ranks, ranks, n);
    RanksKeepBalance(e.ranks, ranks, n, r, t);
    var p := AddRanks(e.positions, byPosition, n);
    RanksKeepBalance(e.positions, byPosition, n, p, t);
    var a := Place(e.assignments, trial.arrangement, n);
    PlacedBalanced(e.assignments, trial.arrangement, n, a, t);
    var w := CountPairs(e.pairwise, ranks, n);
    PrecededTournament(e.pairwise, ranks, n, w, t);
    var s := CountStatuses(e.statuses, trial.statuses, n, t);
    after := Evidence(r, p, a, w, s);
  }
}
