/** The running summary of a trial stream: rank counts by request and by position. */
module Tally {
  import opened Sequences
  import opened Perms
  import opened BatchResult

  type Matrix = seq<seq<int>>

  datatype Trial = Trial(warmup: bool, failed: bool, batch: Batch, arrangement: seq<int>)

  predicate Square(m: Matrix, n: nat) { |m| == n && forall i :: 0 <= i < n ==> |m[i]| == n }

  ghost function Column(m: Matrix, n: nat, r: nat): (c: seq<int>)
    requires Square(m, n) && r < n
    ensures |c| == n
  {
    seq(n, i requires 0 <= i < n => m[i][r])
  }

  /** Every row and every column of the matrix sums to t. */
  ghost predicate Balanced(m: Matrix, n: nat, t: int) {
    && Square(m, n)
    && (forall i :: 0 <= i < n ==> Sum(m[i]) == t)
    && (forall r: nat :: r < n ==> Sum(Column(m, n, r)) == t)
  }

  /** m with one added at (i, ranks[i]) for each row i. */
  predicate Incremented(m: Matrix, ranks: seq<int>, n: nat, after: Matrix) {
    && Square(m, n) && Square(after, n) && |ranks| == n && (forall i :: 0 <= i < n ==> 0 <= ranks[i] < n)
    && forall i :: 0 <= i < n ==> after[i] == m[i][ranks[i] := m[i][ranks[i]] + 1]
  }

  lemma ColumnGains(m: Matrix, ranks: seq<int>, n: nat, after: Matrix, r: nat)
    requires Incremented(m, ranks, n, after) && IsPerm(ranks) && r < n
    ensures Sum(Column(after, n, r)) == Sum(Column(m, n, r)) + 1
  {
    var k := PermIndex(ranks, r);
    var c := Column(m, n, r);
    assert Column(after, n, r) == c[k := c[k] + 1];
    SumUpdate(c, k, c[k] + 1);
  }

  /** Adding a permutation of ranks keeps the matrix balanced. */
  lemma RanksKeepBalance(m: Matrix, ranks: seq<int>, n: nat, after: Matrix, t: int)
    requires Balanced(m, n, t) && Incremented(m, ranks, n, after) && IsPerm(ranks)
    ensures Balanced(after, n, t + 1)
  {
    forall i | 0 <= i < n
      ensures Sum(after[i]) == t + 1
    {
      SumUpdate(m[i], ranks[i], m[i][ranks[i]] + 1);
    }
    forall r: nat | r < n
      ensures Sum(Column(after, n, r)) == t + 1
    {
      ColumnGains(m, ranks, n, after, r);
    }
  }

  /** The rank at each position. */
  function ByPosition(ranks: seq<int>, arrangement: seq<int>): (r: seq<int>)
    requires |arrangement| == |ranks| && IsPerm(arrangement)
    ensures |r| == |ranks|
  {
    seq(|ranks|, p requires 0 <= p < |ranks| => ranks[arrangement[p]])
  }

  lemma ByPositionIsPerm(ranks: seq<int>, arrangement: seq<int>)
    requires |arrangement| == |ranks| && IsPerm(ranks) && IsPerm(arrangement)
    ensures IsPerm(ByPosition(ranks, arrangement))
  {
    ComposeIsPerm(ranks, arrangement, ByPosition(ranks, arrangement));
  }

  /** The trial counts towards the ranks. */
  ghost predicate Complete(t: Trial) {
    !t.failed && AllArrived(t.batch) && |t.batch.order| == |t.batch.replies| && Inverse(t.batch)
  }

  /** What the trial driver hands over: one reply per request, laid out by a
      permutation, unless the trial failed. */
  predicate Shaped(t: Trial, n: nat) {
    |t.batch.replies| <= n && (!t.failed ==> |t.batch.replies| == n && |t.arrangement| == n && IsPerm(t.arrangement))
  }

  /** One more for each request whose stream was reset. */
  predicate ResetsAdded(before: seq<int>, t: Trial, n: nat, after: seq<int>) {
    && |before| == n && |after| == n
    && forall i :: 0 <= i < n ==>
         after[i] == before[i] + if i < |t.batch.replies| && t.batch.replies[i].reset then 1 else 0
  }

  class Summary {
    const n: nat
    var byRequest: Matrix
    var byPosition: Matrix
    var trials: nat
    var failed: nat
    var resets: seq<int>

    ghost predicate Valid()
      reads this
    {
      Balanced(byRequest, n, trials) && Balanced(byPosition, n, trials) && |resets| == n
    }

    constructor (n: nat)
      ensures Valid() && this.n == n && trials == 0 && failed == 0 && resets == seq(n, _ => 0)
      ensures forall i, r :: 0 <= i < n && 0 <= r < n ==> byRequest[i][r] == 0 && byPosition[i][r] == 0
    {
      this.n := n;
      byRequest := seq(n, _ => seq(n, _ => 0));
      byPosition := seq(n, _ => seq(n, _ => 0));
      trials, failed, resets := 0, 0, seq(n, _ => 0);
      ZeroBalanced(n);
    }

    /** Counts a failed trial and the requests whose streams were reset. */
    method CountFailure(t: Trial)
      requires Valid() && Shaped(t, n)
      modifies this`failed, this`resets
      ensures Valid() && failed == old(failed) + 1
      ensures ResetsAdded(old(resets), t, n, resets)
    {
      failed := failed + 1;
      for i := 0 to |t.batch.replies|
        invariant |resets| == n && failed == old(failed) + 1
        invariant forall k :: 0 <= k < n ==>
                    resets[k] == old(resets)[k] + if k < i && t.batch.replies[k].reset then 1 else 0
      {
        if t.batch.replies[i].reset {
          resets := resets[i := resets[i] + 1];
        }
      }
    }

    /** Folds one yielded trial in: every row and column of both matrices keeps summing
        to the number of complete trials. */
    method Count(t: Trial)
      requires Valid() && Shaped(t, n)
      modifies this
      ensures Valid()
      ensures trials == old(trials) + if !t.warmup && Complete(t) then 1 else 0
      ensures failed == old(failed) + if !t.warmup && !Complete(t) then 1 else 0
      ensures if !t.warmup && Complete(t)
              then Incremented(old(byRequest), Ranks(t.batch), n, byRequest) &&
                   Incremented(old(byPosition), ByPosition(Ranks(t.batch), t.arrangement), n, byPosition)
              else byRequest == old(byRequest) && byPosition == old(byPosition)
      ensures if t.warmup || Complete(t) then resets == old(resets) else ResetsAdded(old(resets), t, n, resets)
    {
      if t.warmup {
        return;
      }
      var full := FullArrivalOrder(t.batch);
      if t.failed || !full {
        CountFailure(t);
        return;
      }
      FullRanksArePerm(t.batch);
      var ranks := Ranks(t.batch);
      ByPositionIsPerm(ranks, t.arrangement);
      ghost var rows, columns := byRequest, byPosition;
      trials := trials + 1;
      byRequest := AddRanks(byRequest, ranks, n);
      byPosition := AddRanks(byPosition, ByPosition(ranks, t.arrangement), n);
      RanksKeepBalance(rows, ranks, n, byRequest, old(trials));
      RanksKeepBalance(columns, ByPosition(ranks, t.arrangement), n, byPosition, old(trials));
    }
  }

  lemma ZeroBalanced(n: nat)
    ensures Balanced(seq(n, _ => seq(n, _ => 0)), n, 0)
  {
    var m: Matrix := seq(n, _ => seq(n, _ => 0));
    forall i | 0 <= i < n
      ensures Sum(m[i]) == 0
    {
      SumZero(m[i]);
    }
    forall r: nat | r < n
      ensures Sum(Column(m, n, r)) == 0
    {
      SumZero(Column(m, n, r));
    }
  }

  method AddRanks(m: Matrix, ranks: seq<int>, n: nat) returns (after: Matrix)
    requires Square(m, n) && |ranks| == n && forall i :: 0 <= i < n ==> 0 <= ranks[i] < n
    ensures Incremented(m, ranks, n, after)
  {
    after := m;
    for i := 0 to n
      invariant Square(after, n)
      invariant forall k :: 0 <= k < i ==> after[k] == m[k][ranks[k] := m[k][ranks[k]] + 1]
      invariant forall k :: i <= k < n ==> after[k] == m[k]
    {
      after := after[i := after[i][ranks[i] := after[i][ranks[i]] + 1]];
    }
  }
}
