/** The skeleton of a batch of bodies: shared anchors and change regions that cover
    every body from start to end. */
module SegmentDiff {
  import opened Utf8
  import opened CommonSubstring

  const MAX_SCAN := 8192

  /** The region takes lo[i] up to hi[i] in body i. */
  datatype Segment = Segment(change: bool, lo: seq<nat>, hi: seq<nat>)

  function Piece(bodies: Bodies, lo: seq<nat>, hi: seq<nat>, i: nat): Text
    requires i < |bodies| && i < |lo| && i < |hi| && lo[i] <= hi[i] <= |bodies[i]|
  {
    bodies[i][lo[i]..hi[i]]
  }

  /** All bodies have the same bytes in the region. */
  ghost predicate Same(bodies: Bodies, lo: seq<nat>, hi: seq<nat>)
    requires RegionOk(bodies, lo, hi)
  {
    forall i :: 0 <= i < |bodies| ==> Piece(bodies, lo, hi, i) == Piece(bodies, lo, hi, 0)
  }

  /** The bodies have no common first byte: some range is empty, or first bytes differ. */
  ghost predicate NoCommonFirst(bodies: Bodies, lo: seq<nat>, hi: seq<nat>)
    requires RegionOk(bodies, lo, hi)
  {
    exists i ::
      0 <= i < |bodies| &&
      (lo[i] == hi[i] || (lo[0] < hi[0] && lo[i] < hi[i] && bodies[i][lo[i]] != bodies[0][lo[0]]))
  }

  ghost predicate NoCommonLast(bodies: Bodies, lo: seq<nat>, hi: seq<nat>)
    requires RegionOk(bodies, lo, hi)
  {
    exists i :: 0 <= i < |bodies| &&
      (lo[i] == hi[i] || (lo[0] < hi[0] && lo[i] < hi[i] && bodies[i][hi[i] - 1] != bodies[0][hi[0] - 1]))
  }

  predicate InScan(lo: seq<nat>, hi: seq<nat>) {
    |lo| == |hi| && forall i :: 0 <= i < |lo| ==> hi[i] <= lo[i] + MAX_SCAN
  }

  /** The region cannot be divided: no common first or last byte and, if it is short
      enough to be searched, either no common substring of the minimal length or one
      that a hash collision hides from the search. */
  ghost predicate Irreducible(bodies: Bodies, lo: seq<nat>, hi: seq<nat>)
    requires RegionOk(bodies, lo, hi)
  {
    && NoCommonFirst(bodies, lo, hi) && NoCommonLast(bodies, lo, hi)
    && (InScan(lo, hi) ==> NoneFrom(bodies, lo, hi, MIN_ANCHOR) || HiddenByCollision(bodies, lo, hi))
  }

  ghost predicate HiddenByCollision(bodies: Bodies, lo: seq<nat>, hi: seq<nat>)
    requires RegionOk(bodies, lo, hi)
  {
    exists longest: nat, high: nat :: HiddenAt(bodies, lo, hi, longest, high)
  }

  /** A length on the search path that is common and not findable. */
  ghost predicate HiddenAt(bodies: Bodies, lo: seq<nat>, hi: seq<nat>, longest: nat, high: nat)
    requires RegionOk(bodies, lo, hi)
  {
    && Longest(bodies, lo, hi, longest) && IsShortest(lo, hi, high)
    && !PathFindable(bodies, lo, hi, MIN_ANCHOR, high, longest)
  }

  /** Without collisions nothing is hidden. */
  lemma NothingHidden(bodies: Bodies, lo: seq<nat>, hi: seq<nat>)
    requires RegionOk(bodies, lo, hi) && NeverCollides(bodies, lo, hi)
    ensures !HiddenByCollision(bodies, lo, hi)
  {
    forall longest: nat, high: nat
      ensures !HiddenAt(bodies, lo, hi, longest, high)
    {
      if Longest(bodies, lo, hi, longest) {
        CleanPath(bodies, lo, hi, MIN_ANCHOR, high, longest);
      }
    }
  }

  /** An anchor is shared by all bodies; a change region differs between some two and
      cannot be divided. */
  ghost predicate SegmentOk(bodies: Bodies, s: Segment) {
    && RegionOk(bodies, s.lo, s.hi) && (s.change <==> !Same(bodies, s.lo, s.hi))
    && (s.change ==> Irreducible(bodies, s.lo, s.hi))
  }

  /** The segments follow each other without gap or overlap from lo to hi. */
  ghost predicate Tiles(segments: seq<Segment>, lo: seq<nat>, hi: seq<nat>) {
    if segments == [] then lo == hi else segments[0].lo == lo && Tiles(segments[1..], segments[0].hi, hi)
  }

  ghost predicate Covers(bodies: Bodies, segments: seq<Segment>, lo: seq<nat>, hi: seq<nat>) {
    Tiles(segments, lo, hi) && forall k :: 0 <= k < |segments| ==> SegmentOk(bodies, segments[k])
  }

  lemma {:induction false} TilesJoin(a: seq<Segment>, b: seq<Segment>, lo: seq<nat>, mid: seq<nat>, hi: seq<nat>)
    requires Tiles(a, lo, mid) && Tiles(b, mid, hi)
    ensures Tiles(a + b, lo, hi)
  {
    if a == [] {
      assert a + b == b;
    } else {
      TilesJoin(a[1..], b, a[0].hi, mid, hi);
      assert (a + b)[1..] == a[1..] + b;
    }
  }

  lemma CoversJoin(bodies: Bodies, a: seq<Segment>, b: seq<Segment>, lo: seq<nat>, mid: seq<nat>, hi: seq<nat>)
    requires Covers(bodies, a, lo, mid) && Covers(bodies, b, mid, hi)
    ensures Covers(bodies, a + b, lo, hi)
  {
    TilesJoin(a, b, lo, mid, hi);
  }

  lemma CoversOne(bodies: Bodies, s: Segment)
    requires SegmentOk(bodies, s)
    ensures Covers(bodies, [s], s.lo, s.hi)
  {
    assert [s][1..] == [];
  }

  /** Equal bodies with equal ranges have equal spans in every segment. */
  ghost predicate Even(bodies: Bodies, segments: seq<Segment>, lo: seq<nat>, hi: seq<nat>) {
    forall k, a: nat, b: nat :: 0 <= k < |segments| && Twins(bodies, lo, hi, a, b) ==> SameSpan(segments[k], a, b)
  }

  predicate SameSpan(s: Segment, a: nat, b: nat) {
    a < |s.lo| && b < |s.lo| && a < |s.hi| && b < |s.hi| && s.lo[a] == s.lo[b] && s.hi[a] == s.hi[b]
  }

  lemma EvenJoin(bodies: Bodies, x: seq<Segment>, y: seq<Segment>, lo: seq<nat>, mid: seq<nat>, hi: seq<nat>)
    requires Even(bodies, x, lo, mid) && Even(bodies, y, mid, hi)
    requires Aligned(bodies, lo, hi, mid)
    ensures Even(bodies, x + y, lo, hi)
  {
    forall k, a: nat, b: nat | 0 <= k < |x + y| && Twins(bodies, lo, hi, a, b)
      ensures SameSpan((x + y)[k], a, b)
    {
      assert mid[a] == mid[b];
      assert Twins(bodies, lo, mid, a, b) && Twins(bodies, mid, hi, a, b);
      if k < |x| {
        assert SameSpan(x[k], a, b);
      } else {
        assert SameSpan(y[k - |x|], a, b);
      }
    }
  }

  lemma EvenOne(bodies: Bodies, s: Segment)
    requires |s.lo| == |s.hi| == |bodies|
    ensures Even(bodies, [s], s.lo, s.hi)
  {
  }

  // --------------------------------------------------------------- common ends

  function Shift(lo: seq<nat>, p: nat): (r: seq<nat>)
    ensures |r| == |lo|
  {
    seq(|lo|, i requires 0 <= i < |lo| => lo[i] + p)
  }

  /** The places s before the ends. */
  function Unshift(hi: seq<nat>, s: nat): (r: seq<nat>)
    requires forall i :: 0 <= i < |hi| ==> s <= hi[i]
    ensures |r| == |hi|
  {
    seq(|hi|, i requires 0 <= i < |hi| => hi[i] - s)
  }

  /** Whether all bodies have the same byte at these places. */
  method SameByte(bodies: Bodies, at: seq<nat>) returns (same: bool)
    requires |at| == |bodies| > 0 && forall i :: 0 <= i < |bodies| ==> at[i] < |bodies[i]|
    ensures same <==> AllSame(bodies, at)
  {
    for i := 1 to |bodies|
      invariant forall k :: 0 <= k < i ==> bodies[k][at[k]] == bodies[0][at[0]]
    {
      if bodies[i][at[i]] != bodies[0][at[0]] {
        return false;
      }
    }
    same := true;
  }

  predicate AllSame(bodies: Bodies, at: seq<nat>)
    requires |at| == |bodies| && forall i :: 0 <= i < |bodies| ==> at[i] < |bodies[i]|
  {
    forall i :: 0 <= i < |bodies| ==> bodies[i][at[i]] == bodies[0][at[0]]
  }

  ghost predicate Fits(lo: seq<nat>, hi: seq<nat>, p: nat)
    requires |lo| == |hi|
  {
    forall i :: 0 <= i < |lo| ==> lo[i] + p <= hi[i]
  }

  lemma FitsRegion(bodies: Bodies, lo: seq<nat>, hi: seq<nat>, p: nat)
    requires RegionOk(bodies, lo, hi) && Fits(lo, hi, p)
    ensures RegionOk(bodies, lo, Shift(lo, p)) && RegionOk(bodies, Shift(lo, p), hi)
    ensures RegionOk(bodies, lo, Unshift(hi, p)) && RegionOk(bodies, Unshift(hi, p), hi)
  {
  }

  lemma OneMoreByte(bodies: Bodies, lo: seq<nat>, hi: seq<nat>, p: nat)
    requires RegionOk(bodies, lo, hi) && Fits(lo, hi, p + 1) && RegionOk(bodies, lo, Shift(lo, p)) &&
             Same(bodies, lo, Shift(lo, p))
    requires AllSame(bodies, Shift(lo, p))
    ensures RegionOk(bodies, lo, Shift(lo, p + 1)) && Same(bodies, lo, Shift(lo, p + 1))
  {
    var before, after := Shift(lo, p), Shift(lo, p + 1);
    forall i | 0 <= i < |bodies|
      ensures Piece(bodies, lo, after, i) == Piece(bodies, lo, after, 0)
    {
      assert bodies[i][before[i]] == bodies[0][before[0]];
      assert Piece(bodies, lo, before, i) == Piece(bodies, lo, before, 0);
      assert Piece(bodies, lo, after, i) == Piece(bodies, lo, before, i) + [bodies[i][before[i]]];
      assert Piece(bodies, lo, after, 0) == Piece(bodies, lo, before, 0) + [bodies[0][before[0]]];
    }
  }

  lemma OneMoreByteBack(bodies: Bodies, lo: seq<nat>, hi: seq<nat>, s: nat)
    requires RegionOk(bodies, lo, hi) && Fits(lo, hi, s + 1) && RegionOk(bodies, Unshift(hi, s), hi) &&
             Same(bodies, Unshift(hi, s), hi)
    requires AllSame(bodies, Unshift(hi, s + 1))
    ensures RegionOk(bodies, Unshift(hi, s + 1), hi) && Same(bodies, Unshift(hi, s + 1), hi)
  {
    var before, after := Unshift(hi, s), Unshift(hi, s + 1);
    forall i | 0 <= i < |bodies|
      ensures Piece(bodies, after, hi, i) == Piece(bodies, after, hi, 0)
    {
      assert bodies[i][after[i]] == bodies[0][after[0]];
      assert Piece(bodies, before, hi, i) == Piece(bodies, before, hi, 0);
      assert Piece(bodies, after, hi, i) == [bodies[i][after[i]]] + Piece(bodies, before, hi, i);
      assert Piece(bodies, after, hi, 0) == [bodies[0][after[0]]] + Piece(bodies, before, hi, 0);
    }
  }

  /** The longest common prefix. */
  method CommonPrefix(bodies: Bodies, lo: seq<nat>, hi: seq<nat>) returns (p: nat)
    requires RegionOk(bodies, lo, hi)
    ensures Fits(lo, hi, p) && RegionOk(bodies, lo, Shift(lo, p)) && RegionOk(bodies, Shift(lo, p), hi)
    ensures Same(bodies, lo, Shift(lo, p)) && NoCommonFirst(bodies, Shift(lo, p), hi)
  {
    var most := ShortestRange(lo, hi);
    p := 0;
    FitsRegion(bodies, lo, hi, 0);
    while p < most
      invariant p <= most && Fits(lo, hi, p) && RegionOk(bodies, lo, Shift(lo, p)) && RegionOk(bodies, Shift(lo, p), hi)
      invariant Same(bodies, lo, Shift(lo, p))
    {
      var same := SameByte(bodies, Shift(lo, p));
      if !same {
        return;
      }
      OneMoreByte(bodies, lo, hi, p);
      FitsRegion(bodies, lo, hi, p + 1);
      p := p + 1;
    }
  }

  /** The longest common suffix. */
  method CommonSuffix(bodies: Bodies, lo: seq<nat>, hi: seq<nat>) returns (s: nat)
    requires RegionOk(bodies, lo, hi)
    ensures Fits(lo, hi, s) && RegionOk(bodies, lo, Unshift(hi, s)) && RegionOk(bodies, Unshift(hi, s), hi)
    ensures Same(bodies, Unshift(hi, s), hi) && NoCommonLast(bodies, lo, Unshift(hi, s))
  {
    var most := ShortestRange(lo, hi);
    s := 0;
    FitsRegion(bodies, lo, hi, 0);
    while s < most
      invariant s <= most && Fits(lo, hi, s) && RegionOk(bodies, lo, Unshift(hi, s)) &&
                RegionOk(bodies, Unshift(hi, s), hi)
      invariant Same(bodies, Unshift(hi, s), hi)
    {
      FitsRegion(bodies, lo, hi, s + 1);
      var same := SameByte(bodies, Unshift(hi, s + 1));
      if !same {
        LastsDiffer(bodies, lo, hi, s);
        return;
      }
      OneMoreByteBack(bodies, lo, hi, s);
      s := s + 1;
    }
    RangeUsedUp(bodies, lo, hi, s);
  }

  lemma LastsDiffer(bodies: Bodies, lo: seq<nat>, hi: seq<nat>, s: nat)
    requires RegionOk(bodies, lo, hi) && Fits(lo, hi, s + 1) && RegionOk(bodies, lo, Unshift(hi, s))
    requires !AllSame(bodies, Unshift(hi, s + 1))
    ensures NoCommonLast(bodies, lo, Unshift(hi, s))
  {
    var i :| 0 <= i < |bodies| && bodies[i][Unshift(hi, s + 1)[i]] != bodies[0][Unshift(hi, s + 1)[0]];
    assert Unshift(hi, s)[i] == hi[i] - s && Unshift(hi, s)[0] == hi[0] - s;
  }

  lemma RangeUsedUp(bodies: Bodies, lo: seq<nat>, hi: seq<nat>, s: nat)
    requires RegionOk(bodies, lo, hi) && Fits(lo, hi, s) && RegionOk(bodies, lo, Unshift(hi, s))
    requires exists i :: 0 <= i < |lo| && s == hi[i] - lo[i]
    ensures NoCommonLast(bodies, lo, Unshift(hi, s))
  {
    var i :| 0 <= i < |lo| && s == hi[i] - lo[i];
    assert Unshift(hi, s)[i] == lo[i];
  }

  // ------------------------------------------------------------------ splitting

  method AllEmpty(lo: seq<nat>, hi: seq<nat>) returns (empty: bool)
    requires |lo| == |hi| && forall i :: 0 <= i < |lo| ==> lo[i] <= hi[i]
    ensures empty <==> lo == hi
  {
    for i := 0 to |lo|
      invariant forall k :: 0 <= k < i ==> lo[k] == hi[k]
    {
      if hi[i] > lo[i] {
        return false;
      }
    }
    empty := true;
  }

  method WithinScan(lo: seq<nat>, hi: seq<nat>) returns (within: bool)
    requires |lo| == |hi|
    ensures within <==> InScan(lo, hi)
  {
    for i := 0 to |lo|
      invariant forall k :: 0 <= k < i ==> hi[k] <= lo[k] + MAX_SCAN
    {
      if hi[i] > lo[i] + MAX_SCAN {
        return false;
      }
    }
    within := true;
  }

  /** What is left between a longest common prefix and a common suffix differs, unless it
      is empty in every body. */
  lemma MiddleDiffers(bodies: Bodies, lo: seq<nat>, end: seq<nat>, hi: seq<nat>)
    requires RegionOk(bodies, lo, hi) && RegionOk(bodies, lo, end) && RegionOk(bodies, end, hi)
    requires NoCommonFirst(bodies, lo, hi) && lo != end
    ensures !Same(bodies, lo, end)
  {
    if Same(bodies, lo, end) {
      var j :| 0 <= j < |bodies| && lo[j] != end[j];
      forall i | 0 <= i < |bodies|
        ensures lo[i] < end[i]
      {
        assert |Piece(bodies, lo, end, i)| == |Piece(bodies, lo, end, 0)| == |Piece(bodies, lo, end, j)|;
      }
      FirstsEqual(bodies, lo, end);
    }
  }

  lemma FirstsEqual(bodies: Bodies, lo: seq<nat>, end: seq<nat>)
    requires RegionOk(bodies, lo, end) && Same(bodies, lo, end) && forall i :: 0 <= i < |bodies| ==> lo[i] < end[i]
    ensures forall i :: 0 <= i < |bodies| ==> bodies[i][lo[i]] == bodies[0][lo[0]]
  {
    forall i | 0 <= i < |bodies|
      ensures bodies[i][lo[i]] == bodies[0][lo[0]]
    {
      assert Piece(bodies, lo, end, i) == Piece(bodies, lo, end, 0);
      assert Piece(bodies, lo, end, i)[0] == bodies[i][lo[i]] && Piece(bodies, lo, end, 0)[0] == bodies[0][lo[0]];
    }
  }

  lemma FirstStaysUncommon(bodies: Bodies, lo: seq<nat>, end: seq<nat>, hi: seq<nat>)
    requires RegionOk(bodies, lo, hi) && RegionOk(bodies, lo, end) && RegionOk(bodies, end, hi) &&
             NoCommonFirst(bodies, lo, hi)
    ensures NoCommonFirst(bodies, lo, end)
  {
    var i :| 0 <= i < |bodies| &&
             (lo[i] == hi[i] || (lo[0] < hi[0] && lo[i] < hi[i] && bodies[i][lo[i]] != bodies[0][lo[0]]));
    if lo[0] == end[0] {
      assert lo[0] == end[0] && 0 < |bodies|;
    } else {
      assert lo[i] == end[i] || bodies[i][lo[i]] != bodies[0][lo[0]];
    }
  }

  /** An interior anchor is shared, and divides the region. */
  lemma AnchorDivides(bodies: Bodies, lo: seq<nat>, hi: seq<nat>, starts: seq<nat>, length: nat)
    requires RegionOk(bodies, lo, hi) && Common(bodies, lo, hi, starts, length)
    ensures RegionOk(bodies, lo, starts) && RegionOk(bodies, starts, Shift(starts, length)) &&
            RegionOk(bodies, Shift(starts, length), hi)
    ensures Same(bodies, starts, Shift(starts, length))
    ensures starts[0] - lo[0] <= hi[0] - lo[0] - length && hi[0] - starts[0] - length <= hi[0] - lo[0] - length
  {
    var end := Shift(starts, length);
    forall i | 0 <= i < |bodies|
      ensures Window(bodies[i], lo[i], hi[i], starts[i], length)
      ensures end[i] == starts[i] + length
    {
      CommonAt(bodies, lo, hi, starts, length, i);
    }
    forall i | 0 <= i < |bodies|
      ensures Piece(bodies, starts, end, i) == Piece(bodies, starts, end, 0)
    {
      CommonAt(bodies, lo, hi, starts, length, i);
      assert Piece(bodies, starts, end, i) == Gram(bodies[i], starts[i], length);
      assert Piece(bodies, starts, end, 0) == Gram(bodies[0], starts[0], length);
    }
  }

  lemma ShiftedAligned(bodies: Bodies, lo: seq<nat>, hi: seq<nat>, starts: seq<nat>, length: nat)
    requires Aligned(bodies, lo, hi, starts)
    ensures Aligned(bodies, lo, hi, Shift(starts, length)) && Aligned(bodies, lo, Shift(starts, length), starts)
  {
  }

  /** The anchor of a common run, if it is not empty. */
  function Anchor(lo: seq<nat>, hi: seq<nat>): seq<Segment> { if lo == hi then [] else [Segment(false, lo, hi)] }

  lemma AnchorCovers(bodies: Bodies, lo: seq<nat>, hi: seq<nat>)
    requires RegionOk(bodies, lo, hi) && Same(bodies, lo, hi)
    ensures Covers(bodies, Anchor(lo, hi), lo, hi)
  {
    if lo != hi {
      CoversOne(bodies, Segment(false, lo, hi));
    }
  }

  method PeelPrefix(bodies: Bodies, lo: seq<nat>, hi: seq<nat>) returns (start: seq<nat>, out: seq<Segment>)
    requires RegionOk(bodies, lo, hi)
    ensures RegionOk(bodies, lo, start) && RegionOk(bodies, start, hi)
    ensures Covers(bodies, out, lo, start) && NoCommonFirst(bodies, start, hi) && out == Anchor(lo, start)
    ensures Even(bodies, out, lo, start)
    ensures forall a, b :: 0 <= a < |lo| && 0 <= b < |lo| && lo[a] == lo[b] ==> start[a] == start[b]
  {
    var p := CommonPrefix(bodies, lo, hi);
    start := Shift(lo, p);
    AnchorCovers(bodies, lo, start);
    if p > 0 {
      assert start[0] != lo[0];
      out := [Segment(false, lo, start)];
    } else {
      assert start == lo;
      out := [];
    }
  }

  method PeelSuffix(bodies: Bodies, lo: seq<nat>, hi: seq<nat>) returns (end: seq<nat>, out: seq<Segment>)
    requires RegionOk(bodies, lo, hi)
    ensures RegionOk(bodies, lo, end) && RegionOk(bodies, end, hi)
    ensures Covers(bodies, out, end, hi) && NoCommonLast(bodies, lo, end) && out == Anchor(end, hi)
    ensures Even(bodies, out, end, hi)
    ensures forall a, b :: 0 <= a < |hi| && 0 <= b < |hi| && hi[a] == hi[b] ==> end[a] == end[b]
  {
    var s := CommonSuffix(bodies, lo, hi);
    end := Unshift(hi, s);
    AnchorCovers(bodies, end, hi);
    if s > 0 {
      assert end[0] != hi[0];
      out := [Segment(false, end, hi)];
    } else {
      assert end == hi;
      out := [];
    }
  }

  /** How a region was divided: what is left between its common prefix and suffix is
      nothing, one change region, or cut at an anchor. */
  datatype Region = Region(start: seq<nat>, end: seq<nat>, middle: Middle)
  datatype Middle = Void | Changed | Cut(starts: seq<nat>, length: nat, left: Region, right: Region)

  /** The anchor is the first of the longest common substrings, unless a collision hides a
      longer one. */
  ghost predicate Chosen(bodies: Bodies, lo: seq<nat>, hi: seq<nat>, starts: seq<nat>, length: nat) {
    && RegionOk(bodies, lo, hi) && InScan(lo, hi) && length >= MIN_ANCHOR && Common(bodies, lo, hi, starts, length)
    && First(bodies, lo, hi, length, starts[0])
    && (Longest(bodies, lo, hi, length) || HiddenByCollision(bodies, lo, hi))
  }

  /** Without collisions the anchor is as long as any common substring, and no other of
      its length begins further left in the first body. */
  lemma AnchorIsBest(bodies: Bodies, lo: seq<nat>, hi: seq<nat>, starts: seq<nat>, length: nat, other: seq<nat>, l: nat)
    requires Chosen(bodies, lo, hi, starts, length) && NeverCollides(bodies, lo, hi) && Common(bodies, lo, hi, other, l)
    ensures l <= length && (l == length ==> starts[0] <= other[0])
  {
    NothingHidden(bodies, lo, hi);
    CommonAtMost(bodies, lo, hi, other, l, length);
    if l == length {
      assert NoCollision(bodies, lo, hi, length);
      FirstIsLeftmost(bodies, lo, hi, length, starts[0], other);
    }
  }

  ghost predicate Divides(bodies: Bodies, r: Region, lo: seq<nat>, hi: seq<nat>) {
    && RegionOk(bodies, lo, r.start) && RegionOk(bodies, r.start, r.end) && RegionOk(bodies, r.end, hi)
    && NoCommonFirst(bodies, r.start, hi) && NoCommonLast(bodies, r.start, r.end)
    && DividesMiddle(bodies, r.middle, r.start, r.end)
  }

  ghost predicate DividesMiddle(bodies: Bodies, m: Middle, lo: seq<nat>, hi: seq<nat>) {
    match m
    case Void => lo == hi
    case Changed => true
    case Cut(starts, length, left, right) =>
      && Chosen(bodies, lo, hi, starts, length)
      && Divides(bodies, left, lo, starts) && Divides(bodies, right, Shift(starts, length), hi)
  }

  /** The segments of a divided region. */
  ghost function Segments(r: Region, lo: seq<nat>, hi: seq<nat>): seq<Segment> {
    Anchor(lo, r.start) + MiddleSegments(r.middle, r.start, r.end) + Anchor(r.end, hi)
  }

  ghost function MiddleSegments(m: Middle, lo: seq<nat>, hi: seq<nat>): seq<Segment> {
    match m
    case Void => []
    case Changed => [Segment(true, lo, hi)]
    case Cut(starts, length, left, right) =>
      var end := Shift(starts, length);
      Segments(left, lo, starts) + [Segment(false, starts, end)] + Segments(right, end, hi)
  }

  /** Peels the common prefix and suffix and splits the middle at its longest interior
      anchor. The segments cover the region: anchors are shared, change regions really
      differ, nothing is left out, and every cut is at an anchor chosen as said. */
  method SplitRegion(bodies: Bodies, lo: seq<nat>, hi: seq<nat>) returns (out: seq<Segment>, ghost tree: Region)
    requires RegionOk(bodies, lo, hi)
    ensures Covers(bodies, out, lo, hi) && Even(bodies, out, lo, hi)
    ensures Divides(bodies, tree, lo, hi) && out == Segments(tree, lo, hi)
    decreases hi[0] - lo[0], 2
  {
    var start, prefix := PeelPrefix(bodies, lo, hi);
    var end, suffix := PeelSuffix(bodies, start, hi);
    var empty := AllEmpty(start, end);
    var middle := [];
    ghost var cut := Void;
    if !empty {
      MiddleDiffers(bodies, start, end, hi);
      FirstStaysUncommon(bodies, start, end, hi);
      middle, cut := SplitMiddle(bodies, start, end);
    }
    JoinThree(bodies, prefix, middle, suffix, lo, start, end, hi);
    out, tree := prefix + middle + suffix, Region(start, end, cut);
  }

  lemma JoinThree(bodies: Bodies, prefix: seq<Segment>, middle: seq<Segment>, suffix: seq<Segment>,
                  lo: seq<nat>, start: seq<nat>, end: seq<nat>, hi: seq<nat>)
    requires RegionOk(bodies, lo, start) && RegionOk(bodies, start, end) && RegionOk(bodies, end, hi)
    requires Aligned(bodies, lo, end, start) && Aligned(bodies, lo, hi, end)
    requires Covers(bodies, prefix, lo, start) && Covers(bodies, middle, start, end) && Covers(bodies, suffix, end, hi)
    requires Even(bodies, prefix, lo, start) && Even(bodies, middle, start, end) && Even(bodies, suffix, end, hi)
    ensures Covers(bodies, prefix + middle + suffix, lo, hi) && Even(bodies, prefix + middle + suffix, lo, hi)
  {
    CoversJoin(bodies, prefix, middle, lo, start, end);
    CoversJoin(bodies, prefix + middle, suffix, lo, end, hi);
    EvenJoin(bodies, prefix, middle, lo, start, end);
    EvenJoin(bodies, prefix + middle, suffix, lo, end, hi);
  }

  lemma NothingFound(bodies: Bodies, lo: seq<nat>, hi: seq<nat>, longest: nat, high: int)
    requires RegionOk(bodies, lo, hi) && Longest(bodies, lo, hi, longest) && IsShortest(lo, hi, high)
    requires 0 == (if longest < MIN_ANCHOR then 0 else longest) <==>
             PathFindable(bodies, lo, hi, MIN_ANCHOR, high, longest)
    ensures NoneFrom(bodies, lo, hi, MIN_ANCHOR) || HiddenByCollision(bodies, lo, hi)
  {
    if longest >= MIN_ANCHOR {
      assert high >= 0;
      assert HiddenAt(bodies, lo, hi, longest, high);
    }
  }

  lemma FoundIsChosen(bodies: Bodies, lo: seq<nat>, hi: seq<nat>, starts: seq<nat>, length: nat, longest: nat,
                      high: int)
    requires RegionOk(bodies, lo, hi) && InScan(lo, hi) && length >= MIN_ANCHOR
    requires Common(bodies, lo, hi, starts, length) && First(bodies, lo, hi, length, starts[0])
    requires Longest(bodies, lo, hi, longest) && IsShortest(lo, hi, high)
    requires length == (if longest < MIN_ANCHOR then 0 else longest) <==>
             PathFindable(bodies, lo, hi, MIN_ANCHOR, high, longest)
    ensures Chosen(bodies, lo, hi, starts, length)
  {
    if length != longest {
      assert high >= 0;
      assert HiddenAt(bodies, lo, hi, longest, high);
    }
  }

  /** The interior anchor of a region short enough to be searched. */
  method FindAnchor(bodies: Bodies, lo: seq<nat>, hi: seq<nat>) returns (starts: seq<nat>, length: nat)
    requires RegionOk(bodies, lo, hi)
    ensures length > 0 ==> Chosen(bodies, lo, hi, starts, length) && Aligned(bodies, lo, hi, starts)
    ensures length == 0 && InScan(lo, hi) ==> NoneFrom(bodies, lo, hi, MIN_ANCHOR) || HiddenByCollision(bodies, lo, hi)
  {
    starts, length := [], 0;
    var within := WithinScan(lo, hi);
    if within {
      ghost var longest, high;
      starts, length, longest, high := LongestCommonSubstring(bodies, lo, hi);
      if length == 0 {
        NothingFound(bodies, lo, hi, longest, high);
      } else {
        FoundIsChosen(bodies, lo, hi, starts, length, longest, high);
      }
    }
  }

  /** A middle that differs: split at an interior anchor, or one change region. */
  method SplitMiddle(bodies: Bodies, lo: seq<nat>, hi: seq<nat>) returns (out: seq<Segment>, ghost cut: Middle)
    requires RegionOk(bodies, lo, hi) && !Same(bodies, lo, hi)
    requires NoCommonFirst(bodies, lo, hi) && NoCommonLast(bodies, lo, hi)
    ensures Covers(bodies, out, lo, hi) && Even(bodies, out, lo, hi)
    ensures DividesMiddle(bodies, cut, lo, hi) && out == MiddleSegments(cut, lo, hi)
    decreases hi[0] - lo[0], 1
  {
    var starts, length := FindAnchor(bodies, lo, hi);
    if length > 0 {
      out, cut := CutAt(bodies, lo, hi, starts, length);
    } else {
      CoversOne(bodies, Segment(true, lo, hi));
      EvenOne(bodies, Segment(true, lo, hi));
      out, cut := [Segment(true, lo, hi)], Changed;
    }
  }

  /** Divides a region at an anchor. */
  method CutAt(bodies: Bodies, lo: seq<nat>, hi: seq<nat>, starts: seq<nat>, length: nat)
    returns (out: seq<Segment>, ghost cut: Middle)
    requires RegionOk(bodies, lo, hi) && Chosen(bodies, lo, hi, starts, length) && Aligned(bodies, lo, hi, starts)
    ensures Covers(bodies, out, lo, hi) && Even(bodies, out, lo, hi)
    ensures DividesMiddle(bodies, cut, lo, hi) && out == MiddleSegments(cut, lo, hi)
    decreases hi[0] - lo[0], 0
  {
    AnchorDivides(bodies, lo, hi, starts, length);
    var end := Shift(starts, length);
    ghost var l, r;
    var left, right;
    left, l := SplitRegion(bodies, lo, starts);
    right, r := SplitRegion(bodies, end, hi);
    CoversOne(bodies, Segment(false, starts, end));
    EvenOne(bodies, Segment(false, starts, end));
    ShiftedAligned(bodies, lo, hi, starts, length);
    JoinThree(bodies, left, [Segment(false, starts, end)], right, lo, starts, end, hi);
    out, cut := left + [Segment(false, starts, end)] + right, Cut(starts, length, l, r);
  }

  /** The skeleton of whole bodies. */
  method Skeleton(bodies: Bodies) returns (out: seq<Segment>, ghost tree: Region)
    requires |bodies| > 0
    ensures IsSkeleton(bodies, out)
    ensures Divides(bodies, tree, seq(|bodies|, _ => 0), Lengths(bodies))
    ensures out == Segments(tree, seq(|bodies|, _ => 0), Lengths(bodies))
  {
    out, tree := SplitRegion(bodies, seq(|bodies|, _ => 0), Lengths(bodies));
  }

  function Lengths(bodies: Bodies): (r: seq<nat>)
    ensures |r| == |bodies|
  {
    seq(|bodies|, i requires 0 <= i < |bodies| => |bodies[i]|)
  }

  ghost predicate IsSkeleton(bodies: Bodies, segments: seq<Segment>) {
    var lo, hi := seq(|bodies|, _ => 0), Lengths(bodies);
    Covers(bodies, segments, lo, hi) && Even(bodies, segments, lo, hi)
  }

  // ------------------------------------------------------- telling bodies apart

  /** The bytes of body i in a segment. */
  function Span(bodies: Bodies, s: Segment, i: nat): Text {
    if i < |bodies| && i < |s.lo| && i < |s.hi| && s.lo[i] <= s.hi[i] <= |bodies[i]|
    then bodies[i][s.lo[i]..s.hi[i]] else []
  }

  /** Bodies a and b have the same bytes in the segment. */
  predicate Agree(bodies: Bodies, s: Segment, a: nat, b: nat) { Span(bodies, s, a) == Span(bodies, s, b) }

  lemma AnchorAgrees(bodies: Bodies, s: Segment, a: nat, b: nat)
    requires SegmentOk(bodies, s) && !s.change && a < |bodies| && b < |bodies|
    ensures Agree(bodies, s, a, b)
  {
    assert Piece(bodies, s.lo, s.hi, a) == Piece(bodies, s.lo, s.hi, 0) == Piece(bodies, s.lo, s.hi, b);
  }

  lemma {:induction false} TilesEndLater(bodies: Bodies, segments: seq<Segment>, lo: seq<nat>, hi: seq<nat>, a: nat)
    requires Covers(bodies, segments, lo, hi) && RegionOk(bodies, lo, lo) && a < |bodies|
    ensures |hi| == |bodies| && lo[a] <= hi[a] <= |bodies[a]|
  {
    if segments != [] {
      var s := segments[0];
      assert SegmentOk(bodies, s);
      TilesEndLater(bodies, segments[1..], s.hi, hi, a);
    }
  }

  lemma Concatenated(t: Text, i: nat, j: nat, k: nat)
    requires i <= j <= k <= |t|
    ensures t[i..k] == t[i..j] + t[j..k]
  {
  }

  /** Bodies that agree on every segment agree on everything the segments cover. */
  lemma {:induction false} AgreementAddsUp(bodies: Bodies, segments: seq<Segment>, lo: seq<nat>, hi: seq<nat>, a: nat,
                                           b: nat)
    requires Covers(bodies, segments, lo, hi) && RegionOk(bodies, lo, lo) && a < |bodies| && b < |bodies|
    requires forall k :: 0 <= k < |segments| ==> Agree(bodies, segments[k], a, b)
    ensures |hi| == |bodies| && lo[a] <= hi[a] <= |bodies[a]| && lo[b] <= hi[b] <= |bodies[b]|
    ensures bodies[a][lo[a]..hi[a]] == bodies[b][lo[b]..hi[b]]
  {
    TilesEndLater(bodies, segments, lo, hi, a);
    TilesEndLater(bodies, segments, lo, hi, b);
    if segments != [] {
      var s := segments[0];
      assert SegmentOk(bodies, s) && Agree(bodies, s, a, b);
      AgreementAddsUp(bodies, segments[1..], s.hi, hi, a, b);
      Concatenated(bodies[a], lo[a], s.hi[a], hi[a]);
      Concatenated(bodies[b], lo[b], s.hi[b], hi[b]);
    }
  }

  ghost predicate AgreeOnChanges(bodies: Bodies, segments: seq<Segment>, a: nat, b: nat) {
    forall k :: 0 <= k < |segments| && segments[k].change ==> Agree(bodies, segments[k], a, b)
  }

  /** Two bodies match on all change regions exactly if they are equal. */
  lemma EqualIffAgree(bodies: Bodies, segments: seq<Segment>, a: nat, b: nat)
    requires IsSkeleton(bodies, segments) && a < |bodies| && b < |bodies|
    ensures AgreeOnChanges(bodies, segments, a, b) <==> bodies[a] == bodies[b]
  {
    var lo, hi := seq(|bodies|, _ => 0), Lengths(bodies);
    if AgreeOnChanges(bodies, segments, a, b) {
      forall k | 0 <= k < |segments|
        ensures Agree(bodies, segments[k], a, b)
      {
        if !segments[k].change {
          AnchorAgrees(bodies, segments[k], a, b);
        }
      }
      AgreementAddsUp(bodies, segments, lo, hi, a, b);
      assert bodies[a][0..hi[a]] == bodies[a] && bodies[b][0..hi[b]] == bodies[b];
    }
    if bodies[a] == bodies[b] {
      forall k | 0 <= k < |segments|
        ensures Agree(bodies, segments[k], a, b)
      {
        assert Twins(bodies, lo, hi, a, b);
        assert SameSpan(segments[k], a, b);
      }
    }
  }

  /** The change regions of a skeleton, in order. */
  function Changes(segments: seq<Segment>): (r: seq<Segment>)
    ensures forall k :: 0 <= k < |r| ==> r[k] in segments && r[k].change
    ensures forall s :: s in segments && s.change ==> s in r
  {
    if segments == [] then []
    else
      var last := segments[|segments| - 1];
      Changes(segments[..|segments| - 1]) + if last.change then [last] else []
  }

  ghost predicate AllAgree(bodies: Bodies, list: seq<Segment>, a: nat, b: nat) {
    forall k :: 0 <= k < |list| ==> Agree(bodies, list[k], a, b)
  }

  lemma ChangesSuffice(bodies: Bodies, segments: seq<Segment>, changes: seq<Segment>, a: nat, b: nat)
    requires forall s :: s in changes <==> s in segments && s.change
    ensures AllAgree(bodies, changes, a, b) <==> AgreeOnChanges(bodies, segments, a, b)
  {
    if AllAgree(bodies, changes, a, b) {
      forall k | 0 <= k < |segments| && segments[k].change
        ensures Agree(bodies, segments[k], a, b)
      {
        assert segments[k] in changes;
      }
    }
    if AgreeOnChanges(bodies, segments, a, b) {
      forall k | 0 <= k < |changes|
        ensures Agree(bodies, changes[k], a, b)
      {
        assert changes[k] in segments;
      }
    }
  }

  lemma ChangesDecide(bodies: Bodies, segments: seq<Segment>, a: nat, b: nat)
    requires IsSkeleton(bodies, segments) && a < |bodies| && b < |bodies|
    ensures AllAgree(bodies, Changes(segments), a, b) <==> bodies[a] == bodies[b]
  {
    ChangesSuffice(bodies, segments, Changes(segments), a, b);
    EqualIffAgree(bodies, segments, a, b);
  }

  /** The first region of the list in which two bodies differ, or -1 if there is none. */
  method FirstDifference(bodies: Bodies, changes: seq<Segment>, a: nat, b: nat) returns (r: int)
    ensures -1 <= r < |changes| && (r == -1 <==> AllAgree(bodies, changes, a, b))
    ensures r >= 0 ==> !Agree(bodies, changes[r], a, b) && forall k :: 0 <= k < r ==> Agree(bodies, changes[k], a, b)
  {
    for k := 0 to |changes|
      invariant forall j :: 0 <= j < k ==> Agree(bodies, changes[j], a, b)
    {
      if !Agree(bodies, changes[k], a, b) {
        return k;
      }
    }
    r := -1;
  }
}
