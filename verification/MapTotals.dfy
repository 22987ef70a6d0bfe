/** Sums over the values of a map, in any order. */
module MapTotals {

  function At<K>(m: map<K, int>, k: K): int { if k in m then m[k] else 0 }

  ghost function Total<K>(m: map<K, int>): int
    decreases |m|
  {
    if exists k :: k in m then var k :| k in m; m[k] + Total(m - {k}) else 0
  }

  /** The total does not depend on the order of summation. */
  lemma {:induction false} TotalWithout<K>(m: map<K, int>, k: K)
    requires k in m
    ensures Total(m) == m[k] + Total(m - {k})
    decreases |m|
  {
    var j :| j in m && Total(m) == m[j] + Total(m - {j});
    if j != k {
      TotalWithout(m - {j}, k);
      TotalWithout(m - {k}, j);
      assert (m - {j}) - {k} == (m - {k}) - {j};
    }
  }

  lemma TotalUpdate<K>(m: map<K, int>, k: K, v: int)
    ensures Total(m[k := v]) == Total(m) - At(m, k) + v
  {
    TotalWithout(m[k := v], k);
    assert m[k := v] - {k} == m - {k};
    if k in m {
      TotalWithout(m, k);
    } else {
      assert m - {k} == m;
    }
  }

  // -------------------------------------------------------- a grid, row by row

  /** Place p of row s in layer c. */
  datatype Place = Place(c: nat, s: nat, p: nat)

  /** k comes before l, layer by layer and row by row. */
  predicate Earlier(k: Place, l: Place) { k.c < l.c || (k.c == l.c && (k.s < l.s || (k.s == l.s && k.p < l.p))) }

  function Part(m: map<Place, int>, l: Place): map<Place, int> { map k | k in m && Earlier(k, l) :: m[k] }

  /** All places are in a grid of so many layers, rows and places in a row. */
  predicate InGrid(m: map<Place, int>, layers: nat, rows: nat, n: nat) {
    forall k :: k in m ==> k.c < layers && k.s < rows && k.p < n
  }

  /** The first n places of a row, the first n rows of a layer, the first n layers. */
  function RowSum(m: map<Place, int>, c: nat, s: nat, n: nat): int {
    if n == 0 then 0 else RowSum(m, c, s, n - 1) + At(m, Place(c, s, n - 1))
  }

  function LayerSum(m: map<Place, int>, c: nat, n: nat, width: nat): int {
    if n == 0 then 0 else LayerSum(m, c, n - 1, width) + RowSum(m, c, n - 1, width)
  }

  function GridSum(m: map<Place, int>, n: nat, rows: nat, width: nat): int {
    if n == 0 then 0 else GridSum(m, n - 1, rows, width) + LayerSum(m, n - 1, rows, width)
  }

  lemma OneMorePlace(m: map<Place, int>, c: nat, s: nat, p: nat)
    ensures Total(Part(m, Place(c, s, p + 1))) == Total(Part(m, Place(c, s, p))) + At(m, Place(c, s, p))
  {
    var k, before, after := Place(c, s, p), Part(m, Place(c, s, p)), Part(m, Place(c, s, p + 1));
    if k in m {
      assert after == before[k := m[k]];
      TotalUpdate(before, k, m[k]);
    } else {
      assert after == before;
    }
  }

  lemma {:induction false} RowTotal(m: map<Place, int>, c: nat, s: nat, n: nat)
    ensures Total(Part(m, Place(c, s, n))) == Total(Part(m, Place(c, s, 0))) + RowSum(m, c, s, n)
  {
    if n > 0 {
      RowTotal(m, c, s, n - 1);
      OneMorePlace(m, c, s, n - 1);
    }
  }

  lemma {:induction false} LayerTotal(m: map<Place, int>, layers: nat, rows: nat, width: nat, c: nat, n: nat)
    requires InGrid(m, layers, rows, width)
    ensures Total(Part(m, Place(c, n, 0))) == Total(Part(m, Place(c, 0, 0))) + LayerSum(m, c, n, width)
  {
    if n > 0 {
      LayerTotal(m, layers, rows, width, c, n - 1);
      RowTotal(m, c, n - 1, width);
      assert Part(m, Place(c, n, 0)) == Part(m, Place(c, n - 1, width));
    }
  }

  lemma {:induction false} LayersTotal(m: map<Place, int>, layers: nat, rows: nat, width: nat, n: nat)
    requires InGrid(m, layers, rows, width)
    ensures Total(Part(m, Place(n, 0, 0))) == GridSum(m, n, rows, width)
  {
    if n == 0 {
      assert Part(m, Place(0, 0, 0)) == map[];
    } else {
      LayersTotal(m, layers, rows, width, n - 1);
      LayerTotal(m, layers, rows, width, n - 1, rows);
      assert Part(m, Place(n, 0, 0)) == Part(m, Place(n - 1, rows, 0));
    }
  }

  /** Three nested loops over the grid add up every place once. */
  lemma GridTotal(m: map<Place, int>, layers: nat, rows: nat, width: nat)
    requires InGrid(m, layers, rows, width)
    ensures GridSum(m, layers, rows, width) == Total(m)
  {
    LayersTotal(m, layers, rows, width, layers);
    assert Part(m, Place(layers, 0, 0)) == m;
  }
}
