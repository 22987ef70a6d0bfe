/** The count matrices of a measurement: ranks by request and by position, assignments
    of requests to positions, pairwise precedence, and response statuses. */
module Counts {
  import opened MapTotals
  import opened Sequences
  import opened Perms
  import opened Tally

  // ------------------------------------------------------------------ histograms

  type Histogram = map<int, int>

  predicate SameSum(r: Histogram, rest: Histogram, m: Histogram, source: Histogram, k: int) {
    At(r, k) + At(rest, k) == At(m, k) + At(source, k)
  }

  /** Moving the count of one key from rest to r. */
  lemma MoveCount(r: Histogram, rest: Histogram, m: Histogram, source: Histogram, k: int)
    requires k in rest && forall j :: SameSum(r, rest, m, source, j)
    ensures var moved := r[k := At(r, k) + rest[k]];
            && Total(moved) + Total(rest - {k}) == Total(r) + Total(rest)
            && forall j :: SameSum(moved, rest - {k}, m, source, j)
  {
    TotalUpdate(r, k, At(r, k) + rest[k]);
    TotalWithout(rest, k);
    var moved, left := r[k := At(r, k) + rest[k]], rest - {k};
    forall j
      ensures SameSum(moved, left, m, source, j)
    {
      assert SameSum(r, rest, m, source, j);
    }
  }

  /** Adds every count of source to m. */
  method AddHistogram(m: Histogram, source: Histogram) returns (r: Histogram)
    ensures forall k :: At(r, k) == At(m, k) + At(source, k)
    ensures Total(r) == Total(m) + Total(source)
  {
    var rest := source;
    r := m;
    while exists k :: k in rest
      invariant forall k :: SameSum(r, rest, m, source, k)
      invariant Total(r) + Total(rest) == Total(m) + Total(source)
      decreases |rest|
    {
      var k :| k in rest;
      MoveCount(r, rest, m, source, k);
      r, rest := r[k := At(r, k) + rest[k]], rest - {k};
    }
    assert forall k :: SameSum(r, rest, m, source, k) ==> At(r, k) == At(m, k) + At(source, k);
  }

  // -------------------------------------------------------------------- matrices

  predicate Added(a: Matrix, b: Matrix, n: nat, c: Matrix) {
    && Square(a, n) && Square(b, n) && Square(c, n)
    && forall i, j :: 0 <= i < n && 0 <= j < n ==> c[i][j] == a[i][j] + b[i][j]
  }

  method AddRow(a: seq<int>, b: seq<int>) returns (c: seq<int>)
    requires |a| == |b|
    ensures |c| == |a| && forall j :: 0 <= j < |a| ==> c[j] == a[j] + b[j]
  {
    c := a;
    for j := 0 to |a|
      invariant |c| == |a|
      invariant forall k :: 0 <= k < |a| ==> c[k] == a[k] + if k < j then b[k] else 0
    {
      c := c[j := c[j] + b[j]];
    }
  }

  method AddMatrix(a: Matrix, b: Matrix, n: nat) returns (c: Matrix)
    requires Square(a, n) && Square(b, n)
    ensures Added(a, b, n, c)
  {
    c := a;
    for i := 0 to n
      invariant Square(c, n)
      invariant forall k, j :: 0 <= k < n && 0 <= j < n ==> c[k][j] == a[k][j] + if k < i then b[k][j] else 0
    {
      var row := AddRow(c[i], b[i]);
      c := c[i := row];
    }
  }

  lemma BalancedAdds(a: Matrix, b: Matrix, n: nat, c: Matrix, s: int, t: int)
    requires Added(a, b, n, c) && Balanced(a, n, s) && Balanced(b, n, t)
    ensures Balanced(c, n, s + t)
  {
    forall i | 0 <= i < n
      ensures Sum(c[i]) == s + t
    {
      SumAdds(a[i], b[i], c[i]);
    }
    forall r: nat | r < n
      ensures Sum(Column(c, n, r)) == s + t
    {
      SumAdds(Column(a, n, r), Column(b, n, r), Column(c, n, r));
    }
  }

  // -------------------------------------------------------------------- pairwise

  /** m[l][r] counts the trials in which l arrived before r, over t trials. */
  predicate Tournament(m: Matrix, n: nat, t: int) {
    && Square(m, n)
    && (forall i :: 0 <= i < n ==> m[i][i] == 0)
    && (forall l, r :: 0 <= l < n && 0 <= r < n && l != r ==> m[l][r] + m[r][l] == t)
  }

  function Before(ranks: seq<int>, l: nat, r: nat): int
    requires l < |ranks| && r < |ranks|
  {
    if ranks[l] < ranks[r] then 1 else 0
  }

  predicate Preceded(m: Matrix, ranks: seq<int>, n: nat, after: Matrix) {
    && Square(m, n) && Square(after, n) && |ranks| == n
    && forall l, r :: 0 <= l < n && 0 <= r < n ==> after[l][r] == m[l][r] + Before(ranks, l, r)
  }

  lemma PrecededTournament(m: Matrix, ranks: seq<int>, n: nat, after: Matrix, t: int)
    requires Tournament(m, n, t) && Preceded(m, ranks, n, after) && Distinct(ranks)
    ensures Tournament(after, n, t + 1)
  {
    forall i | 0 <= i < n
      ensures after[i][i] == 0
    {
      assert m[i][i] == 0 && Before(ranks, i, i) == 0;
    }
    forall l, r | 0 <= l < n && 0 <= r < n && l != r
      ensures after[l][r] + after[r][l] == t + 1
    {
      assert ranks[l] != ranks[r];
      assert m[l][r] + m[r][l] == t;
    }
  }

  lemma TournamentAdds(a: Matrix, b: Matrix, n: nat, c: Matrix, s: int, t: int)
    requires Added(a, b, n, c) && Tournament(a, n, s) && Tournament(b, n, t)
    ensures Tournament(c, n, s + t)
  {
    forall l, r | 0 <= l < n && 0 <= r < n && l != r
      ensures c[l][r] + c[r][l] == s + t
    {
      assert a[l][r] + a[r][l] == s && b[l][r] + b[r][l] == t;
    }
  }

  method PrecedeRow(row: seq<int>, ranks: seq<int>, rank: int) returns (after: seq<int>)
    requires |row| == |ranks|
    ensures |after| == |row|
    ensures forall r :: 0 <= r < |row| ==> after[r] == row[r] + if rank < ranks[r] then 1 else 0
  {
    after := row;
    for r := 0 to |row|
      invariant |after| == |row|
      invariant forall k :: 0 <= k < |row| ==> after[k] == row[k] + if k < r && rank < ranks[k] then 1 else 0
    {
      if rank < ranks[r] {
        after := after[r := after[r] + 1];
      }
    }
  }

  method CountPairs(m: Matrix, ranks: seq<int>, n: nat) returns (after: Matrix)
    requires Square(m, n) && |ranks| == n
    ensures Preceded(m, ranks, n, after)
  {
    after := m;
    for l := 0 to n
      invariant Square(after, n)
      invariant forall k :: l <= k < n ==> after[k] == m[k]
      invariant forall k, r :: 0 <= k < l && 0 <= r < n ==>
                  after[k][r] == m[k][r] + if ranks[k] < ranks[r] then 1 else 0
    {
      var row := PrecedeRow(after[l], ranks, ranks[l]);
      after := after[l := row];
    }
  }

  // ------------------------------------------------------------------ all counts

  datatype Evidence =
    Evidence(ranks: Matrix, positions: Matrix, assignments: Matrix, pairwise: Matrix, statuses: seq<Histogram>)

  ghost predicate StatusesOk(statuses: seq<Histogram>, n: nat, t: int) {
    |statuses| == n && forall i :: 0 <= i < n ==> Total(statuses[i]) == t
  }

  /** Everything counted in the evidence adds up to t trials. */
  ghost predicate Consistent(e: Evidence, n: nat, t: int) {
    && Balanced(e.ranks, n, t) && Balanced(e.positions, n, t) && Balanced(e.assignments, n, t)
    && Tournament(e.pairwise, n, t) && StatusesOk(e.statuses, n, t)
  }

  function ZeroMatrix(n: nat): Matrix { seq(n, _ => seq(n, _ => 0)) }

  function NoEvidence(n: nat): Evidence {
    Evidence(ZeroMatrix(n), ZeroMatrix(n), ZeroMatrix(n), ZeroMatrix(n), seq(n, _ => map[]))
  }

  lemma NoEvidenceConsistent(n: nat)
    ensures Consistent(NoEvidence(n), n, 0)
  {
    ZeroBalanced(n);
    assert forall i :: 0 <= i < n ==> NoEvidence(n).statuses[i] == map[];
  }

  method AddStatuses(a: seq<Histogram>, b: seq<Histogram>, ghost n: nat, ghost s: int, ghost t: int)
    returns (c: seq<Histogram>)
    requires StatusesOk(a, n, s) && StatusesOk(b, n, t)
    ensures StatusesOk(c, n, s + t)
    ensures forall i, k :: 0 <= i < n ==> At(c[i], k) == At(a[i], k) + At(b[i], k)
  {
    c := a;
    for i := 0 to |b|
      invariant |c| == n
      invariant forall j :: i <= j < n ==> c[j] == a[j]
      invariant forall j :: 0 <= j < i ==> Total(c[j]) == s + t
      invariant forall j, k :: 0 <= j < i ==> At(c[j], k) == At(a[j], k) + At(b[j], k)
    {
      var h := AddHistogram(c[i], b[i]);
      c := c[i := h];
    }
  }

  /** Commits the evidence of a whole cycle. */
  method AddEvidence(a: Evidence, b: Evidence, n: nat, ghost s: int, ghost t: int) returns (c: Evidence)
    requires Consistent(a, n, s) && Consistent(b, n, t)
    ensures Consistent(c, n, s + t)
    ensures Added(a.ranks, b.ranks, n, c.ranks) && Added(a.positions, b.positions, n, c.positions)
    ensures Added(a.assignments, b.assignments, n, c.assignments) && Added(a.pairwise, b.pairwise, n, c.pairwise)
    ensures forall i, k :: 0 <= i < n ==> At(c.statuses[i], k) == At(a.statuses[i], k) + At(b.statuses[i], k)
  {
    var ranks := AddMatrix(a.ranks, b.ranks, n);
    BalancedAdds(a.ranks, b.ranks, n, ranks, s, t);
    var positions := AddMatrix(a.positions, b.positions, n);
    BalancedAdds(a.positions, b.positions, n, positions, s, t);
    var assignments := AddMatrix(a.assignments, b.assignments, n);
    BalancedAdds(a.assignments, b.assignments, n, assignments, s, t);
    var pairwise := AddMatrix(a.pairwise, b.pairwise, n);
    TournamentAdds(a.pairwise, b.pairwise, n, pairwise, s, t);
    var statuses := AddStatuses(a.statuses, b.statuses, n, s, t);
    c := Evidence(ranks, positions, assignments, pairwise, statuses);
  }
}
