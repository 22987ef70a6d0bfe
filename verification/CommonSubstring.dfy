/** The longest substring common to a region of every body, by binary search over its
    length and hashed windows that are compared byte by byte. */
module CommonSubstring {
  import opened Utf8
  import opened RollingHash

  const MIN_ANCHOR := 3

  type Bodies = seq<Text>

  /** lo and hi bound a range in each body. */
  ghost predicate RegionOk(bodies: Bodies, lo: seq<nat>, hi: seq<nat>) {
    |lo| == |hi| == |bodies| > 0 && forall i :: 0 <= i < |bodies| ==> lo[i] <= hi[i] <= |bodies[i]|
  }

  predicate Window(b: Text, lo: nat, hi: nat, start: nat, length: nat) {
    lo <= start && start + length <= hi <= |b|
  }

  /** The bytes of a window. */
  function Gram(b: Text, start: nat, length: nat): Text {
    if start + length <= |b| then b[start..start + length] else []
  }

  /** The windows at these starts are inside the region and byte-identical. */
  ghost predicate Common(bodies: Bodies, lo: seq<nat>, hi: seq<nat>, starts: seq<nat>, length: nat)
    requires RegionOk(bodies, lo, hi)
  {
    && |starts| == |bodies|
    && (forall i :: 0 <= i < |bodies| ==> Window(bodies[i], lo[i], hi[i], starts[i], length))
    && forall i :: 0 <= i < |bodies| ==> Gram(bodies[i], starts[i], length) == Gram(bodies[0], starts[0], length)
  }

  lemma CommonAt(bodies: Bodies, lo: seq<nat>, hi: seq<nat>, starts: seq<nat>, length: nat, i: nat)
    requires RegionOk(bodies, lo, hi) && Common(bodies, lo, hi, starts, length) && i < |bodies|
    ensures Window(bodies[i], lo[i], hi[i], starts[i], length)
    ensures Gram(bodies[i], starts[i], length) == Gram(bodies[0], starts[0], length)
  {
  }

  ghost predicate HasCommon(bodies: Bodies, lo: seq<nat>, hi: seq<nat>, length: nat)
    requires RegionOk(bodies, lo, hi)
  {
    exists starts :: Common(bodies, lo, hi, starts, length)
  }

  /** A common substring contains a common substring of any smaller length. */
  lemma ShorterIsCommon(bodies: Bodies, lo: seq<nat>, hi: seq<nat>, length: nat, shorter: nat)
    requires RegionOk(bodies, lo, hi) && HasCommon(bodies, lo, hi, length) && shorter <= length
    ensures HasCommon(bodies, lo, hi, shorter)
  {
    var starts :| Common(bodies, lo, hi, starts, length);
    forall i | 0 <= i < |bodies|
      ensures Window(bodies[i], lo[i], hi[i], starts[i], shorter)
      ensures Gram(bodies[i], starts[i], shorter) == Gram(bodies[i], starts[i], length)[..shorter]
    {
      assert Window(bodies[i], lo[i], hi[i], starts[i], length);
    }
    assert Common(bodies, lo, hi, starts, shorter) by {
      forall i | 0 <= i < |bodies|
        ensures Gram(bodies[i], starts[i], shorter) == Gram(bodies[0], starts[0], shorter)
      {
        assert Gram(bodies[i], starts[i], length) == Gram(bodies[0], starts[0], length);
      }
    }
  }

  /** Windows of body 0 and of body i with equal hashes are equal. */
  ghost predicate NoCollision(bodies: Bodies, lo: seq<nat>, hi: seq<nat>, length: nat)
    requires RegionOk(bodies, lo, hi)
  {
    forall i, s: nat, t: nat ::
      0 <= i < |bodies| && Window(bodies[0], lo[0], hi[0], s, length) && Window(bodies[i], lo[i], hi[i], t, length) &&
      Hash(Gram(bodies[0], s, length)) == Hash(Gram(bodies[i], t, length)) ==>
        Gram(bodies[0], s, length) == Gram(bodies[i], t, length)
  }

  // ---------------------------------------------------------- what the search finds

  /** t is the leftmost window of the range with this hash. */
  ghost predicate Leftmost(b: Text, lo: nat, hi: nat, length: nat, h: int, t: nat) {
    && Window(b, lo, hi, t, length) && Hash(Gram(b, t, length)) == h
    && forall u: nat :: Window(b, lo, hi, u, length) && Hash(Gram(b, u, length)) == h ==> t <= u
  }

  /** The leftmost window with the hash of gram has the bytes of gram. */
  ghost predicate Leads(b: Text, lo: nat, hi: nat, gram: Text) {
    exists t: nat :: Leftmost(b, lo, hi, |gram|, Hash(gram), t) && Gram(b, t, |gram|) == gram
  }

  /** The window of body 0 leads its hash in every other body. */
  ghost predicate LeadsEverywhere(bodies: Bodies, lo: seq<nat>, hi: seq<nat>, length: nat, s: nat)
    requires RegionOk(bodies, lo, hi)
  {
    && Window(bodies[0], lo[0], hi[0], s, length)
    && forall i :: 1 <= i < |bodies| ==> Leads(bodies[i], lo[i], hi[i], Gram(bodies[0], s, length))
  }

  /** Some window of body 0 does. */
  ghost predicate Findable(bodies: Bodies, lo: seq<nat>, hi: seq<nat>, length: nat)
    requires RegionOk(bodies, lo, hi)
  {
    exists s: nat :: LeadsEverywhere(bodies, lo, hi, length, s)
  }

  lemma TableLeads(b: Text, lo: nat, hi: nat, length: nat, table: map<int, nat>, gram: Text)
    requires TableOk(b, lo, hi, length, table) && |gram| == length
    ensures Leads(b, lo, hi, gram) <==> Hash(gram) in table && Gram(b, table[Hash(gram)], length) == gram
  {
    var h := Hash(gram);
    if h in table {
      assert Leftmost(b, lo, hi, length, h, table[h]);
    }
  }

  // ---------------------------------------------------------------- hash tables

  /** The table has an entry for every window: the leftmost window with that hash. */
  ghost predicate TableOk(b: Text, lo: nat, hi: nat, length: nat, table: map<int, nat>) {
    && (forall h :: h in table ==> Window(b, lo, hi, table[h], length) && Hash(Gram(b, table[h], length)) == h)
    && (forall s: nat :: Window(b, lo, hi, s, length) ==>
          Hash(Gram(b, s, length)) in table && table[Hash(Gram(b, s, length))] <= s)
  }

  /** The table holds the first place of each of the first k hashes. */
  ghost predicate Firsts(hashes: seq<int>, lo: nat, k: nat, table: map<int, nat>)
    requires k <= |hashes|
  {
    && (forall h :: h in table ==> lo <= table[h] < lo + k && hashes[table[h] - lo] == h)
    && (forall j :: 0 <= j < k ==> hashes[j] in table && table[hashes[j]] <= lo + j)
  }

  lemma FirstsIsTable(b: Text, lo: nat, hi: nat, length: nat, hashes: seq<int>, table: map<int, nat>)
    requires lo <= hi <= |b| && length > 0 && Firsts(hashes, lo, |hashes|, table)
    requires |hashes| == if length > hi - lo then 0 else hi - lo - length + 1
    requires forall k :: 0 <= k < |hashes| ==> hashes[k] == Hash(b[lo + k..lo + k + length])
    ensures TableOk(b, lo, hi, length, table)
  {
    forall h | h in table
      ensures Window(b, lo, hi, table[h], length) && Hash(Gram(b, table[h], length)) == h
    {
      assert hashes[table[h] - lo] == h;
    }
    forall s: nat | Window(b, lo, hi, s, length)
      ensures Hash(Gram(b, s, length)) in table && table[Hash(Gram(b, s, length))] <= s
    {
      assert hashes[s - lo] == Hash(Gram(b, s, length));
    }
  }

  method HashTable(b: Text, lo: nat, hi: nat, length: nat) returns (table: map<int, nat>)
    requires lo <= hi <= |b| && length > 0
    ensures TableOk(b, lo, hi, length, table)
  {
    var hashes := RollHashes(b, lo, hi, length);
    table := FirstPlaces(hashes, lo);
    FirstsIsTable(b, lo, hi, length, hashes, table);
  }

  method FirstPlaces(hashes: seq<int>, lo: nat) returns (table: map<int, nat>)
    ensures Firsts(hashes, lo, |hashes|, table)
  {
    table := map[];
    for k := 0 to |hashes|
      invariant Firsts(hashes, lo, k, table)
    {
      if hashes[k] !in table {
        table := table[hashes[k] := lo + k];
      }
    }
  }

  // --------------------------------------------------------------- one length

  ghost predicate TablesOk(bodies: Bodies, lo: seq<nat>, hi: seq<nat>, length: nat, tables: seq<map<int, nat>>)
    requires RegionOk(bodies, lo, hi)
  {
    |tables| == |bodies| && forall i :: 1 <= i < |bodies| ==> TableOk(bodies[i], lo[i], hi[i], length, tables[i])
  }

  method Tables(bodies: Bodies, lo: seq<nat>, hi: seq<nat>, length: nat) returns (tables: seq<map<int, nat>>, ok: bool)
    requires RegionOk(bodies, lo, hi) && length > 0
    ensures ok ==> TablesOk(bodies, lo, hi, length, tables)
    ensures !ok ==> !Findable(bodies, lo, hi, length)
  {
    tables := [map[]];
    for i := 1 to |bodies|
      invariant |tables| == i && forall k :: 1 <= k < i ==> TableOk(bodies[k], lo[k], hi[k], length, tables[k])
    {
      var table := HashTable(bodies[i], lo[i], hi[i], length);
      if |table| == 0 {
        NoWindow(bodies, lo, hi, length, i, table);
        return tables, false;
      }
      tables := tables + [table];
    }
    ok := true;
  }

  lemma NoWindow(bodies: Bodies, lo: seq<nat>, hi: seq<nat>, length: nat, i: nat, table: map<int, nat>)
    requires RegionOk(bodies, lo, hi) && 0 < i < |bodies| && table == map[]
    requires TableOk(bodies[i], lo[i], hi[i], length, table)
    ensures !Findable(bodies, lo, hi, length)
  {
    forall s: nat
      ensures !LeadsEverywhere(bodies, lo, hi, length, s)
    {
      if Window(bodies[0], lo[0], hi[0], s, length) {
        TableLeads(bodies[i], lo[i], hi[i], length, table, Gram(bodies[0], s, length));
      }
    }
  }

  /** Looks the window of body 0 up in every other body. */
  method Match(bodies: Bodies, lo: seq<nat>, hi: seq<nat>, length: nat, tables: seq<map<int, nat>>, start: nat, h: int)
    returns (starts: seq<nat>, ok: bool)
    requires RegionOk(bodies, lo, hi) && TablesOk(bodies, lo, hi, length, tables)
    requires Window(bodies[0], lo[0], hi[0], start, length) && h == Hash(Gram(bodies[0], start, length))
    ensures ok <==> LeadsEverywhere(bodies, lo, hi, length, start)
    ensures ok ==> Common(bodies, lo, hi, starts, length) && starts[0] == start && FromTables(tables, h, starts)
  {
    starts := [start];
    for i := 1 to |bodies|
      invariant Matched(bodies, lo, hi, starts, length, i) && starts[0] == start
      invariant forall k :: 1 <= k < i ==> h in tables[k] && starts[k] == tables[k][h]
    {
      if h !in tables[i] || Gram(bodies[i], tables[i][h], length) != Gram(bodies[0], start, length) {
        TableLeads(bodies[i], lo[i], hi[i], length, tables[i], Gram(bodies[0], start, length));
        return starts, false;
      }
      MatchMore(bodies, lo, hi, starts, length, i, tables[i][h]);
      starts := starts + [tables[i][h]];
    }
    MatchLeads(bodies, lo, hi, length, tables, starts, h);
    ok := true;
  }

  lemma MatchLeads(bodies: Bodies, lo: seq<nat>, hi: seq<nat>, length: nat, tables: seq<map<int, nat>>,
                   starts: seq<nat>, h: int)
    requires RegionOk(bodies, lo, hi) && TablesOk(bodies, lo, hi, length, tables) &&
             Common(bodies, lo, hi, starts, length)
    requires h == Hash(Gram(bodies[0], starts[0], length)) && FromTables(tables, h, starts)
    ensures LeadsEverywhere(bodies, lo, hi, length, starts[0])
  {
    CommonAt(bodies, lo, hi, starts, length, 0);
    forall i | 1 <= i < |bodies|
      ensures Leads(bodies[i], lo[i], hi[i], Gram(bodies[0], starts[0], length))
    {
      CommonAt(bodies, lo, hi, starts, length, i);
      TableLeads(bodies[i], lo[i], hi[i], length, tables[i], Gram(bodies[0], starts[0], length));
    }
  }

  /** The starts so far are common to the first n bodies. */
  ghost predicate Matched(bodies: Bodies, lo: seq<nat>, hi: seq<nat>, starts: seq<nat>, length: nat, n: nat)
    requires RegionOk(bodies, lo, hi)
  {
    && |starts| == n <= |bodies| && n > 0
    && (forall i :: 0 <= i < n ==> Window(bodies[i], lo[i], hi[i], starts[i], length))
    && forall i :: 0 <= i < n ==> Gram(bodies[i], starts[i], length) == Gram(bodies[0], starts[0], length)
  }

  lemma MatchMore(bodies: Bodies, lo: seq<nat>, hi: seq<nat>, starts: seq<nat>, length: nat, n: nat, start: nat)
    requires RegionOk(bodies, lo, hi) && Matched(bodies, lo, hi, starts, length, n) && n < |bodies|
    requires Window(bodies[n], lo[n], hi[n], start, length)
    requires Gram(bodies[n], start, length) == Gram(bodies[0], starts[0], length)
    ensures Matched(bodies, lo, hi, starts + [start], length, n + 1)
  {
  }

  predicate FromTables(tables: seq<map<int, nat>>, h: int, starts: seq<nat>) {
    |starts| == |tables| && forall i :: 1 <= i < |tables| ==> h in tables[i] && starts[i] == tables[i][h]
  }

  /** Equal bodies with equal ranges. */
  predicate Twins(bodies: Bodies, lo: seq<nat>, hi: seq<nat>, a: nat, b: nat) {
    && a < |bodies| && b < |bodies| && |lo| == |hi| == |bodies|
    && bodies[a] == bodies[b] && lo[a] == lo[b] && hi[a] == hi[b]
  }

  ghost predicate Aligned(bodies: Bodies, lo: seq<nat>, hi: seq<nat>, starts: seq<nat>) {
    |starts| == |bodies| && forall a: nat, b: nat :: Twins(bodies, lo, hi, a, b) ==> starts[a] == starts[b]
  }

  lemma SameEntry(b: Text, lo: nat, hi: nat, length: nat, t: map<int, nat>, u: map<int, nat>, h: int)
    requires TableOk(b, lo, hi, length, t) && TableOk(b, lo, hi, length, u) && h in t && h in u
    ensures t[h] == u[h]
  {
    assert Window(b, lo, hi, t[h], length) && Window(b, lo, hi, u[h], length);
  }

  /** No window of body 0 that starts before end leads everywhere. */
  ghost predicate NoneLeads(bodies: Bodies, lo: seq<nat>, hi: seq<nat>, length: nat, end: nat)
    requires RegionOk(bodies, lo, hi)
  {
    forall s: nat :: lo[0] <= s < end ==> !LeadsEverywhere(bodies, lo, hi, length, s)
  }

  /** The window of body 0 is the first that leads everywhere. */
  ghost predicate First(bodies: Bodies, lo: seq<nat>, hi: seq<nat>, length: nat, s: nat)
    requires RegionOk(bodies, lo, hi)
  {
    LeadsEverywhere(bodies, lo, hi, length, s) && NoneLeads(bodies, lo, hi, length, s)
  }

  /** If body b equals body 0, the leftmost match in body 0 is at the start of body b. */
  lemma AlignedWithFirst(bodies: Bodies, lo: seq<nat>, hi: seq<nat>, length: nat, table: map<int, nat>,
                         starts: seq<nat>, h: int, b: nat)
    requires RegionOk(bodies, lo, hi) && Common(bodies, lo, hi, starts, length)
    requires 1 <= b && Twins(bodies, lo, hi, 0, b) && TableOk(bodies[b], lo[b], hi[b], length, table)
    requires h == Hash(Gram(bodies[0], starts[0], length)) && h in table && starts[b] == table[h]
    requires NoneLeads(bodies, lo, hi, length, starts[0]) && LeadsEverywhere(bodies, lo, hi, length, starts[0])
    ensures starts[b] == starts[0]
  {
    CommonAt(bodies, lo, hi, starts, length, 0);
    CommonAt(bodies, lo, hi, starts, length, b);
    if starts[b] < starts[0] {
      SameGramLeads(bodies, lo, hi, length, starts[0], starts[b]);
    }
  }

  lemma SameGramLeads(bodies: Bodies, lo: seq<nat>, hi: seq<nat>, length: nat, s: nat, t: nat)
    requires RegionOk(bodies, lo, hi) && LeadsEverywhere(bodies, lo, hi, length, s)
    requires Window(bodies[0], lo[0], hi[0], t, length) && Gram(bodies[0], t, length) == Gram(bodies[0], s, length)
    ensures LeadsEverywhere(bodies, lo, hi, length, t)
  {
  }

  lemma AlignedStarts(bodies: Bodies, lo: seq<nat>, hi: seq<nat>, length: nat, tables: seq<map<int, nat>>,
                      starts: seq<nat>, h: int)
    requires RegionOk(bodies, lo, hi) && Common(bodies, lo, hi, starts, length) &&
             TablesOk(bodies, lo, hi, length, tables)
    requires h == Hash(Gram(bodies[0], starts[0], length)) && FromTables(tables, h, starts)
    requires NoneLeads(bodies, lo, hi, length, starts[0]) && LeadsEverywhere(bodies, lo, hi, length, starts[0])
    ensures Aligned(bodies, lo, hi, starts)
  {
    forall a: nat, b: nat | Twins(bodies, lo, hi, a, b)
      ensures starts[a] == starts[b]
    {
      if a == 0 && b > 0 {
        AlignedWithFirst(bodies, lo, hi, length, tables[b], starts, h, b);
      } else if b == 0 && a > 0 {
        AlignedWithFirst(bodies, lo, hi, length, tables[a], starts, h, a);
      } else if a > 0 && b > 0 {
        SameEntry(bodies[a], lo[a], hi[a], length, tables[a], tables[b], h);
      }
    }
  }

  /** Scans the windows of body 0 from the left for one that leads its hash in every other
      body. There is a result exactly if there is such a window; it is common to all
      bodies, the leftmost of its kind, and at equal places in equal bodies. */
  method CommonOfLength(bodies: Bodies, lo: seq<nat>, hi: seq<nat>, length: nat) returns (starts: seq<nat>, ok: bool)
    requires RegionOk(bodies, lo, hi) && length > 0
    ensures ok <==> Findable(bodies, lo, hi, length)
    ensures ok ==> Common(bodies, lo, hi, starts, length) && Aligned(bodies, lo, hi, starts)
    ensures ok ==> First(bodies, lo, hi, length, starts[0])
  {
    var tables;
    tables, ok := Tables(bodies, lo, hi, length);
    if ok {
      starts, ok := Scan(bodies, lo, hi, length, tables);
    } else {
      starts := [];
    }
  }

  method GramHashes(b: Text, lo: nat, hi: nat, length: nat) returns (hashes: seq<int>)
    requires lo <= hi <= |b| && length > 0
    ensures |hashes| == if length > hi - lo then 0 else hi - lo - length + 1
    ensures forall k :: 0 <= k < |hashes| ==> hashes[k] == Hash(Gram(b, lo + k, length))
  {
    hashes := RollHashes(b, lo, hi, length);
  }

  method Scan(bodies: Bodies, lo: seq<nat>, hi: seq<nat>, length: nat, tables: seq<map<int, nat>>)
    returns (starts: seq<nat>, ok: bool)
    requires RegionOk(bodies, lo, hi) && length > 0 && TablesOk(bodies, lo, hi, length, tables)
    ensures ok <==> Findable(bodies, lo, hi, length)
    ensures ok ==> Common(bodies, lo, hi, starts, length) && Aligned(bodies, lo, hi, starts)
    ensures ok ==> First(bodies, lo, hi, length, starts[0])
  {
    var hashes := GramHashes(bodies[0], lo[0], hi[0], length);
    for k := 0 to |hashes|
      invariant NoneLeads(bodies, lo, hi, length, lo[0] + k)
    {
      starts, ok := Match(bodies, lo, hi, length, tables, lo[0] + k, hashes[k]);
      if ok {
        AlignedStarts(bodies, lo, hi, length, tables, starts, hashes[k]);
        LeadIsFindable(bodies, lo, hi, length, starts[0]);
        return;
      }
      NoneLeadsNext(bodies, lo, hi, length, lo[0] + k);
    }
    NothingFindable(bodies, lo, hi, length, lo[0] + |hashes|);
    starts, ok := [], false;
  }

  lemma LeadIsFindable(bodies: Bodies, lo: seq<nat>, hi: seq<nat>, length: nat, s: nat)
    requires RegionOk(bodies, lo, hi) && LeadsEverywhere(bodies, lo, hi, length, s)
    ensures Findable(bodies, lo, hi, length)
  {
  }

  lemma NoneLeadsNext(bodies: Bodies, lo: seq<nat>, hi: seq<nat>, length: nat, s: nat)
    requires RegionOk(bodies, lo, hi) && NoneLeads(bodies, lo, hi, length, s) &&
             !LeadsEverywhere(bodies, lo, hi, length, s)
    ensures NoneLeads(bodies, lo, hi, length, s + 1)
  {
  }

  lemma NothingFindable(bodies: Bodies, lo: seq<nat>, hi: seq<nat>, length: nat, end: nat)
    requires RegionOk(bodies, lo, hi) && NoneLeads(bodies, lo, hi, length, end) && end + length > hi[0]
    ensures !Findable(bodies, lo, hi, length)
  {
  }

  // -------------------------------------------------------------- binary search

  method ShortestRange(lo: seq<nat>, hi: seq<nat>) returns (m: nat)
    requires |lo| == |hi| > 0 && forall i :: 0 <= i < |lo| ==> lo[i] <= hi[i]
    ensures forall i :: 0 <= i < |lo| ==> m <= hi[i] - lo[i]
    ensures exists i :: 0 <= i < |lo| && m == hi[i] - lo[i]
  {
    m := hi[0] - lo[0];
    ghost var at := 0;
    for i := 1 to |lo|
      invariant 0 <= at < i && m == hi[at] - lo[at]
      invariant forall k :: 0 <= k < i ==> m <= hi[k] - lo[k]
    {
      if hi[i] - lo[i] < m {
        m, at := hi[i] - lo[i], i;
      }
    }
  }

  ghost predicate NoneFrom(bodies: Bodies, lo: seq<nat>, hi: seq<nat>, length: nat)
    requires RegionOk(bodies, lo, hi)
  {
    forall l: nat :: l >= length ==> !HasCommon(bodies, lo, hi, l)
  }

  ghost predicate NeverCollides(bodies: Bodies, lo: seq<nat>, hi: seq<nat>)
    requires RegionOk(bodies, lo, hi)
  {
    forall l: nat :: NoCollision(bodies, lo, hi, l)
  }

  lemma NoneBeyond(bodies: Bodies, lo: seq<nat>, hi: seq<nat>, length: nat)
    requires RegionOk(bodies, lo, hi) && !HasCommon(bodies, lo, hi, length)
    ensures NoneFrom(bodies, lo, hi, length)
  {
    forall l: nat | l >= length
      ensures !HasCommon(bodies, lo, hi, l)
    {
      if HasCommon(bodies, lo, hi, l) {
        ShorterIsCommon(bodies, lo, hi, l, length);
      }
    }
  }

  lemma NoneTooLong(bodies: Bodies, lo: seq<nat>, hi: seq<nat>, i: nat)
    requires RegionOk(bodies, lo, hi) && i < |bodies|
    ensures NoneFrom(bodies, lo, hi, hi[i] - lo[i] + 1)
  {
    forall l: nat, starts | l > hi[i] - lo[i]
      ensures !Common(bodies, lo, hi, starts, l)
    {
      if Common(bodies, lo, hi, starts, l) {
        CommonAt(bodies, lo, hi, starts, l, i);
      }
    }
  }

  /** The greatest common length; one below the minimal length if none reaches it. */
  ghost predicate Longest(bodies: Bodies, lo: seq<nat>, hi: seq<nat>, length: nat)
    requires RegionOk(bodies, lo, hi)
  {
    && length >= MIN_ANCHOR - 1 && (length >= MIN_ANCHOR ==> HasCommon(bodies, lo, hi, length))
    && NoneFrom(bodies, lo, hi, length + 1)
  }

  lemma {:induction false} LongestBelow(bodies: Bodies, lo: seq<nat>, hi: seq<nat>, bound: nat) returns (length: nat)
    requires RegionOk(bodies, lo, hi) && bound >= MIN_ANCHOR - 1 && NoneFrom(bodies, lo, hi, bound + 1)
    ensures Longest(bodies, lo, hi, length)
    decreases bound
  {
    length := bound;
    if length >= MIN_ANCHOR && !HasCommon(bodies, lo, hi, length) {
      NoneBeyond(bodies, lo, hi, length);
      length := LongestBelow(bodies, lo, hi, bound - 1);
    }
  }

  /** Every length up to longest that the binary search from low to high tries on its way
      to longest is findable. */
  ghost predicate PathFindable(bodies: Bodies, lo: seq<nat>, hi: seq<nat>, low: int, high: int, longest: nat)
    requires RegionOk(bodies, lo, hi) && low >= 0
    decreases high - low + 1
  {
    low > high ||
    (var middle := (low + high) / 2;
     if middle <= longest then
       Findable(bodies, lo, hi, middle) && PathFindable(bodies, lo, hi, middle + 1, high, longest)
     else PathFindable(bodies, lo, hi, low, middle - 1, longest))
  }

  /** The longest common substring of at least the minimal length, or length zero. What is
      returned is common to all bodies. It is the longest exactly if no length on the
      search path hides behind a hash collision. */
  method LongestCommonSubstring(bodies: Bodies, lo: seq<nat>, hi: seq<nat>)
    returns (starts: seq<nat>, length: nat, ghost longest: nat, ghost high: int)
    requires RegionOk(bodies, lo, hi)
    ensures length == 0 ||
            (length >= MIN_ANCHOR && Common(bodies, lo, hi, starts, length) && Aligned(bodies, lo, hi, starts))
    ensures length > 0 ==> First(bodies, lo, hi, length, starts[0])
    ensures Longest(bodies, lo, hi, longest) && IsShortest(lo, hi, high)
    ensures length == (if longest < MIN_ANCHOR then 0 else longest) <==>
            PathFindable(bodies, lo, hi, MIN_ANCHOR, high, longest)
    ensures NeverCollides(bodies, lo, hi) ==> NoneFrom(bodies, lo, hi, if length == 0 then MIN_ANCHOR else length + 1)
  {
    var shortest := ShortestRange(lo, hi);
    ghost var at :| 0 <= at < |lo| && shortest == hi[at] - lo[at];
    NoneTooLong(bodies, lo, hi, at);
    longest := LongestBelow(bodies, lo, hi, if shortest < MIN_ANCHOR then MIN_ANCHOR - 1 else shortest);
    high := shortest;
    starts, length := [], 0;
    if shortest < MIN_ANCHOR {
      ShortRange(bodies, lo, hi, shortest, longest);
      return;
    }
    starts, length := Search(bodies, lo, hi, shortest, longest);
    if NeverCollides(bodies, lo, hi) {
      CleanPath(bodies, lo, hi, MIN_ANCHOR, shortest, longest);
    }
  }

  ghost predicate IsShortest(lo: seq<nat>, hi: seq<nat>, m: int) {
    && |lo| == |hi| && (forall i :: 0 <= i < |lo| ==> lo[i] + m <= hi[i])
    && exists i :: 0 <= i < |lo| && lo[i] + m == hi[i]
  }

  lemma ShortRange(bodies: Bodies, lo: seq<nat>, hi: seq<nat>, shortest: nat, longest: nat)
    requires RegionOk(bodies, lo, hi) && shortest < MIN_ANCHOR && Longest(bodies, lo, hi, longest)
    requires NoneFrom(bodies, lo, hi, shortest + 1)
    ensures longest < MIN_ANCHOR
  {
  }

  /** A common substring that is findable really is common. */
  lemma CommonAtMost(bodies: Bodies, lo: seq<nat>, hi: seq<nat>, starts: seq<nat>, length: nat, longest: nat)
    requires RegionOk(bodies, lo, hi) && Longest(bodies, lo, hi, longest) && Common(bodies, lo, hi, starts, length)
    ensures length <= longest
  {
    assert HasCommon(bodies, lo, hi, length);
  }

  /** Where the binary search stands: on its way to the longest, or already below it. */
  ghost predicate OnTheWay(bodies: Bodies, lo: seq<nat>, hi: seq<nat>, low: nat, high: int, shortest: nat, longest: nat)
    requires RegionOk(bodies, lo, hi)
  {
    if low <= longest + 1 && longest <= high then
      PathFindable(bodies, lo, hi, MIN_ANCHOR, shortest, longest) == PathFindable(bodies, lo, hi, low, high, longest)
    else high < longest && !PathFindable(bodies, lo, hi, MIN_ANCHOR, shortest, longest)
  }

  lemma StepOnTheWay(bodies: Bodies, lo: seq<nat>, hi: seq<nat>, low: nat, high: int, shortest: nat, longest: nat,
                     ok: bool)
    requires RegionOk(bodies, lo, hi) && low <= high && OnTheWay(bodies, lo, hi, low, high, shortest, longest)
    requires ok <==> Findable(bodies, lo, hi, (low + high) / 2)
    requires ok ==> (low + high) / 2 <= longest
    ensures var middle := (low + high) / 2;
            if ok then OnTheWay(bodies, lo, hi, middle + 1, high, shortest, longest)
            else OnTheWay(bodies, lo, hi, low, middle - 1, shortest, longest)
  {
  }

  method Search(bodies: Bodies, lo: seq<nat>, hi: seq<nat>, shortest: nat, ghost longest: nat)
    returns (starts: seq<nat>, length: nat)
    requires RegionOk(bodies, lo, hi) && shortest >= MIN_ANCHOR && Longest(bodies, lo, hi, longest) &&
             longest <= shortest
    ensures length == 0 ||
            (length >= MIN_ANCHOR && Common(bodies, lo, hi, starts, length) && Aligned(bodies, lo, hi, starts))
    ensures length > 0 ==> First(bodies, lo, hi, length, starts[0])
    ensures length == (if longest < MIN_ANCHOR then 0 else longest) <==>
            PathFindable(bodies, lo, hi, MIN_ANCHOR, shortest, longest)
  {
    starts, length := [], 0;
    var low, high := MIN_ANCHOR, shortest;
    while low <= high
      invariant MIN_ANCHOR <= low <= high + 1
      invariant if length == 0 then low == MIN_ANCHOR else
                  length == low - 1 >= MIN_ANCHOR && Common(bodies, lo, hi, starts, length) &&
                  Aligned(bodies, lo, hi, starts) && First(bodies, lo, hi, length, starts[0])
      invariant OnTheWay(bodies, lo, hi, low, high, shortest, longest)
      decreases high - low
    {
      var middle := (low + high) / 2;
      var found, ok := CommonOfLength(bodies, lo, hi, middle);
      if ok {
        CommonAtMost(bodies, lo, hi, found, middle, longest);
      }
      StepOnTheWay(bodies, lo, hi, low, high, shortest, longest, ok);
      if ok {
        length, starts, low := middle, found, middle + 1;
      } else {
        high := middle - 1;
      }
    }
    if length > 0 {
      CommonAtMost(bodies, lo, hi, starts, length, longest);
    }
  }

  /** Without collisions every common window leads everywhere. */
  lemma CleanLeads(bodies: Bodies, lo: seq<nat>, hi: seq<nat>, starts: seq<nat>, length: nat)
    requires RegionOk(bodies, lo, hi) && NoCollision(bodies, lo, hi, length) && Common(bodies, lo, hi, starts, length)
    ensures LeadsEverywhere(bodies, lo, hi, length, starts[0])
  {
    CommonAt(bodies, lo, hi, starts, length, 0);
    var gram := Gram(bodies[0], starts[0], length);
    forall i | 1 <= i < |bodies|
      ensures Leads(bodies[i], lo[i], hi[i], gram)
    {
      CommonAt(bodies, lo, hi, starts, length, i);
      var t := LeftmostExists(bodies[i], lo[i], hi[i], length, Hash(gram), starts[i]);
      assert Gram(bodies[0], starts[0], length) == Gram(bodies[i], t, length);
    }
  }

  lemma CleanIsFindable(bodies: Bodies, lo: seq<nat>, hi: seq<nat>, length: nat)
    requires RegionOk(bodies, lo, hi) && NoCollision(bodies, lo, hi, length) && HasCommon(bodies, lo, hi, length)
    ensures Findable(bodies, lo, hi, length)
  {
    var starts :| Common(bodies, lo, hi, starts, length);
    CleanLeads(bodies, lo, hi, starts, length);
  }

  /** Without collisions the first window that leads everywhere is the leftmost common one. */
  lemma FirstIsLeftmost(bodies: Bodies, lo: seq<nat>, hi: seq<nat>, length: nat, s: nat, starts: seq<nat>)
    requires RegionOk(bodies, lo, hi) && NoCollision(bodies, lo, hi, length) && First(bodies, lo, hi, length, s)
    requires Common(bodies, lo, hi, starts, length)
    ensures s <= starts[0]
  {
    CleanLeads(bodies, lo, hi, starts, length);
    CommonAt(bodies, lo, hi, starts, length, 0);
  }

  lemma {:induction false} LeftmostExists(b: Text, lo: nat, hi: nat, length: nat, h: int, s: nat) returns (t: nat)
    requires Window(b, lo, hi, s, length) && Hash(Gram(b, s, length)) == h
    ensures Leftmost(b, lo, hi, length, h, t)
    decreases s
  {
    if u: nat :| u < s && Window(b, lo, hi, u, length) && Hash(Gram(b, u, length)) == h {
      t := LeftmostExists(b, lo, hi, length, h, u);
    } else {
      t := s;
    }
  }

  lemma {:induction false} CleanPath(bodies: Bodies, lo: seq<nat>, hi: seq<nat>, low: nat, high: int, longest: nat)
    requires RegionOk(bodies, lo, hi) && NeverCollides(bodies, lo, hi) && Longest(bodies, lo, hi, longest) &&
             low >= MIN_ANCHOR
    ensures PathFindable(bodies, lo, hi, low, high, longest)
    decreases high - low + 1
  {
    if low <= high {
      var middle := (low + high) / 2;
      if middle <= longest {
        ShorterIsCommon(bodies, lo, hi, longest, middle);
        assert NoCollision(bodies, lo, hi, middle);
        CleanIsFindable(bodies, lo, hi, middle);
        CleanPath(bodies, lo, hi, middle + 1, high, longest);
      } else {
        CleanPath(bodies, lo, hi, low, middle - 1, longest);
      }
    }
  }
}
