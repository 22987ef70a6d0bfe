/** The template of each baseline control: templates take turns, layer by layer, until
    their supplies run out. */
module BaselineLookup {
  import opened Sequences
  import opened Orbit

  datatype Supply = Supply(unlimited: bool, count: nat)

  // ------------------------------------------------------- the round-robin list

  /** The templates among the first n that still have supply in this layer. */
  function LayerOf(supplies: seq<nat>, layer: nat, n: nat): (r: seq<nat>)
    requires n <= |supplies|
    ensures |r| <= n
  {
    if n == 0 then [] else LayerOf(supplies, layer, n - 1) + if supplies[n - 1] > layer then [n - 1] else []
  }

  /** The first m layers, one after the other. */
  function RoundRobin(supplies: seq<nat>, m: nat): seq<nat> {
    if m == 0 then [] else RoundRobin(supplies, m - 1) + LayerOf(supplies, m - 1, |supplies|)
  }

  function Min(a: int, b: int): int { if a < b then a else b }

  function Capacity(supplies: seq<nat>, m: int, n: nat): int
    requires n <= |supplies|
  {
    if n == 0 then 0 else Capacity(supplies, m, n - 1) + Min(supplies[n - 1], m)
  }

  lemma {:induction false} LayerAddsCapacity(supplies: seq<nat>, m: nat, n: nat)
    requires n <= |supplies|
    ensures Capacity(supplies, m + 1, n) == Capacity(supplies, m, n) + |LayerOf(supplies, m, n)|
  {
    if n > 0 {
      LayerAddsCapacity(supplies, m, n - 1);
    }
  }

  lemma {:induction false} NoCapacity(supplies: seq<nat>, n: nat)
    requires n <= |supplies|
    ensures Capacity(supplies, 0, n) == 0
  {
    if n > 0 {
      NoCapacity(supplies, n - 1);
    }
  }

  /** The first m layers hold as many controls as the capacity says. */
  lemma {:induction false} CapacityIsLength(supplies: seq<nat>, m: nat)
    ensures |RoundRobin(supplies, m)| == Capacity(supplies, m, |supplies|)
  {
    if m == 0 {
      NoCapacity(supplies, |supplies|);
    } else {
      CapacityIsLength(supplies, m - 1);
      LayerAddsCapacity(supplies, m - 1, |supplies|);
    }
  }

  /** More layers only append. */
  lemma {:induction false} LaterLayersAppend(supplies: seq<nat>, k: nat, m: nat)
    requires k <= m
    ensures |RoundRobin(supplies, k)| <= |RoundRobin(supplies, m)|
    ensures RoundRobin(supplies, m)[..|RoundRobin(supplies, k)|] == RoundRobin(supplies, k)
    decreases m
  {
    if k < m {
      LaterLayersAppend(supplies, k, m - 1);
    }
  }

  function Maximum(supplies: seq<nat>): nat {
    if supplies == [] then 0
    else
      var rest := Maximum(supplies[..|supplies| - 1]);
      if rest < supplies[|supplies| - 1] then supplies[|supplies| - 1] else rest
  }

  lemma {:induction false} MaximumIsUpper(supplies: seq<nat>, i: nat)
    requires i < |supplies|
    ensures supplies[i] <= Maximum(supplies)
  {
    var n := |supplies| - 1;
    if i < n {
      MaximumIsUpper(supplies[..n], i);
    }
  }

  // --------------------------------------------------------------- shares

  /** How often v is among the first n entries. */
  function Occurrences(s: seq<nat>, v: nat, n: nat): nat
    requires n <= |s|
  {
    if n == 0 then 0 else Occurrences(s, v, n - 1) + if s[n - 1] == v then 1 else 0
  }

  lemma {:induction false} OccurrencesBefore(a: seq<nat>, b: seq<nat>, v: nat, n: nat)
    requires n <= |a|
    ensures Occurrences(a + b, v, n) == Occurrences(a, v, n)
  {
    if n > 0 {
      OccurrencesBefore(a, b, v, n - 1);
    }
  }

  lemma {:induction false} OccurrencesAfter(a: seq<nat>, b: seq<nat>, v: nat, n: nat)
    requires n <= |b|
    ensures Occurrences(a + b, v, |a| + n) == Occurrences(a, v, |a|) + Occurrences(b, v, n)
  {
    if n == 0 {
      OccurrencesBefore(a, b, v, |a|);
    } else {
      OccurrencesAfter(a, b, v, n - 1);
      assert (a + b)[|a| + n - 1] == b[n - 1];
    }
  }

  function Share(list: seq<nat>, i: nat): nat { Occurrences(list, i, |list|) }

  lemma ShareAdds(a: seq<nat>, b: seq<nat>, i: nat)
    ensures Share(a + b, i) == Share(a, i) + Share(b, i)
  {
    OccurrencesAfter(a, b, i, |b|);
  }

  lemma ShareOfOne(v: nat, i: nat)
    ensures Share([v], i) == if v == i then 1 else 0
  {
    assert Occurrences([v], i, 0) == 0;
  }

  lemma {:induction false} OnceInLayer(supplies: seq<nat>, layer: nat, n: nat, i: nat)
    requires n <= |supplies| && i < |supplies|
    ensures Share(LayerOf(supplies, layer, n), i) == if i < n && supplies[i] > layer then 1 else 0
    decreases n
  {
    if n > 0 {
      OnceInLayer(supplies, layer, n - 1, i);
      var last: seq<nat> := if supplies[n - 1] > layer then [n - 1] else [];
      ShareAdds(LayerOf(supplies, layer, n - 1), last, i);
      ShareOfOne(n - 1, i);
    }
  }

  lemma ShareGrows(supplies: seq<nat>, m: nat, i: nat)
    requires i < |supplies|
    ensures Share(RoundRobin(supplies, m + 1), i) ==
            Share(RoundRobin(supplies, m), i) + if supplies[i] > m then 1 else 0
  {
    OnceInLayer(supplies, m, |supplies|, i);
    ShareAdds(RoundRobin(supplies, m), LayerOf(supplies, m, |supplies|), i);
  }

  lemma NoShare(supplies: seq<nat>, i: nat)
    ensures Share(RoundRobin(supplies, 0), i) == 0
  {
  }

  /** Within m layers a template has as many controls as its supply allows. */
  lemma {:induction false} ShareWithin(supplies: seq<nat>, m: nat, i: nat)
    requires i < |supplies|
    ensures Share(RoundRobin(supplies, m), i) == Min(supplies[i], m)
    decreases m
  {
    if m == 0 {
      NoShare(supplies, i);
    } else {
      var k := m - 1;
      ShareWithin(supplies, k, i);
      ShareGrows(supplies, k, i);
      assert k + 1 == m;
    }
  }

  /** The complete list gives every template exactly its supply. */
  lemma ShareIsSupply(supplies: seq<nat>, i: nat)
    requires i < |supplies|
    ensures Share(RoundRobin(supplies, Maximum(supplies)), i) == supplies[i]
  {
    ShareWithin(supplies, Maximum(supplies), i);
    MaximumIsUpper(supplies, i);
  }

  // ---------------------------------------------------------------- the lookup

  method CapacityThrough(supplies: seq<nat>, layer: int) returns (capacity: int)
    requires layer >= -1
    ensures capacity == |RoundRobin(supplies, layer + 1)|
  {
    CapacityIsLength(supplies, layer + 1);
    if layer < 0 {
      return 0;
    }
    capacity := 0;
    for i := 0 to |supplies|
      invariant capacity == Capacity(supplies, layer + 1, i)
    {
      capacity := capacity + Min(supplies[i], layer + 1);
    }
  }

  method Measure(supplies: seq<nat>) returns (total: nat, maximum: nat)
    ensures maximum == Maximum(supplies) && total == |RoundRobin(supplies, maximum)|
  {
    total, maximum := 0, 0;
    for i := 0 to |supplies|
      invariant maximum == Maximum(supplies[..i])
      invariant total == Sum(supplies[..i])
    {
      assert supplies[..i + 1][..i] == supplies[..i];
      total := total + supplies[i];
      maximum := if maximum < supplies[i] then supplies[i] else maximum;
    }
    assert supplies[..|supplies|] == supplies;
    CapacityIsLength(supplies, maximum);
    FullCapacity(supplies, maximum, |supplies|);
  }

  lemma {:induction false} FullCapacity(supplies: seq<nat>, m: nat, n: nat)
    requires n <= |supplies| && m == Maximum(supplies)
    ensures Capacity(supplies, m, n) == Sum(supplies[..n])
  {
    if n > 0 {
      FullCapacity(supplies, m, n - 1);
      MaximumIsUpper(supplies, n - 1);
      assert supplies[..n][..n - 1] == supplies[..n - 1];
    }
  }

  /** The layer of a control: the first whose capacity exceeds it. */
  method FindLayer(supplies: seq<nat>, control: nat, maximum: nat) returns (layer: nat)
    requires control < |RoundRobin(supplies, maximum)|
    ensures layer < maximum && |RoundRobin(supplies, layer)| <= control < |RoundRobin(supplies, layer + 1)|
  {
    var lo, hi := 0, maximum;
    while lo < hi
      invariant 0 <= lo <= hi <= maximum
      invariant |RoundRobin(supplies, lo)| <= control
      invariant hi < maximum ==> control < |RoundRobin(supplies, hi + 1)|
    {
      var middle := lo + (hi - lo) / 2;
      var capacity := CapacityThrough(supplies, middle);
      if capacity > control {
        hi := middle;
      } else {
        lo := middle + 1;
      }
    }
    layer := lo;
  }

  /** The entry at this offset of one layer, counting down. */
  method EntryInLayer(supplies: seq<nat>, layer: nat, start: nat) returns (i: nat)
    requires start < |LayerOf(supplies, layer, |supplies|)|
    ensures i < |supplies| && i == LayerOf(supplies, layer, |supplies|)[start]
  {
    var offset := start;
    i := 0;
    while i < |supplies|
      invariant i <= |supplies| && start == |LayerOf(supplies, layer, i)| + offset
    {
      if supplies[i] > layer {
        if offset == 0 {
          LayerPrefix(supplies, layer, i + 1, |supplies|);
          return;
        }
        offset := offset - 1;
      }
      i := i + 1;
    }
    assert false;
  }

  lemma {:induction false} LayerPrefix(supplies: seq<nat>, layer: nat, k: nat, n: nat)
    requires k <= n <= |supplies|
    ensures |LayerOf(supplies, layer, k)| <= |LayerOf(supplies, layer, n)|
    ensures LayerOf(supplies, layer, n)[..|LayerOf(supplies, layer, k)|] == LayerOf(supplies, layer, k)
  {
    if k < n {
      LayerPrefix(supplies, layer, k, n - 1);
    }
  }

  function Counts(templates: seq<Supply>): (r: seq<nat>)
    ensures |r| == |templates|
  {
    seq(|templates|, i requires 0 <= i < |templates| => templates[i].count)
  }

  /** The template of a control: the entry of the round-robin list at that place. An
      unlimited first template means that all take turns without end. */
  method TemplateIndex(templates: seq<Supply>, control: int) returns (r: Option<nat>)
    ensures control < 0 || templates == [] ==> r.None?
    ensures control >= 0 && templates != [] && templates[0].unlimited ==> r == Some(control % |templates|)
    ensures control >= 0 && templates != [] && !templates[0].unlimited ==>
              var list := RoundRobin(Counts(templates), Maximum(Counts(templates)));
              r == if control < |list| then Some(list[control]) else None
  {
    if control < 0 || |templates| == 0 {
      return None;
    }
    if templates[0].unlimited {
      return Some(control % |templates|);
    }
    var supplies := Counts(templates);
    var total, maximum := Measure(supplies);
    if control >= total {
      return None;
    }
    var layer: int := FindLayer(supplies, control, maximum);
    var before := CapacityThrough(supplies, layer - 1);
    LaterLayersAppend(supplies, layer + 1, maximum);
    var i := EntryInLayer(supplies, layer, control - before);
    r := Some(i);
  }

  // ------------------------------------------------------------- unlimited supply

  lemma {:induction false} FullLayer(supplies: seq<nat>, layer: nat, n: nat)
    requires n <= |supplies| && forall i :: 0 <= i < |supplies| ==> supplies[i] > layer
    ensures |LayerOf(supplies, layer, n)| == n && forall i :: 0 <= i < n ==> LayerOf(supplies, layer, n)[i] == i
  {
    if n > 0 {
      FullLayer(supplies, layer, n - 1);
    }
  }

  /** Taking turns without end is the round-robin list of supplies that never run out. */
  lemma {:induction false} EndlessTurns(supplies: seq<nat>, m: nat, control: nat)
    requires supplies != [] && (forall i :: 0 <= i < |supplies| ==> supplies[i] >= m) && control < |supplies| * m
    ensures |RoundRobin(supplies, m)| == |supplies| * m && RoundRobin(supplies, m)[control] == control % |supplies|
    decreases m
  {
    var n := |supplies|;
    FullLayer(supplies, m - 1, n);
    assert n * m == n * (m - 1) + n;
    FullLength(supplies, m - 1);
    if control < n * (m - 1) {
      EndlessTurns(supplies, m - 1, control);
    } else {
      Unique(control, n, m - 1, control - n * (m - 1));
    }
  }

  lemma {:induction false} FullLength(supplies: seq<nat>, m: nat)
    requires forall i :: 0 <= i < |supplies| ==> supplies[i] >= m
    ensures |RoundRobin(supplies, m)| == |supplies| * m
    decreases m
  {
    if m > 0 {
      FullLength(supplies, m - 1);
      FullLayer(supplies, m - 1, |supplies|);
      assert |supplies| * m == |supplies| * (m - 1) + |supplies|;
    }
  }
}
