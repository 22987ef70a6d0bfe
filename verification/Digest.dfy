/** One line per body: how many change regions a line shows, and the reconciliation that
    extends lines until different bodies have different lines where possible. */
module Digest {
  import opened Sequences
  import opened Utf8
  import opened CommonSubstring
  import opened SegmentDiff

  const MAX_DIGEST := 64

  /** What a body's line is made of: a piece per change region with the shared context
      before it, and the context after the last one. safe: every byte may be printed. */
  datatype Parts = Parts(safe: bool, pieces: seq<Text>, trailing: Text)

  function Concatenated(pieces: seq<Text>): Text {
    if pieces == [] then [] else Concatenated(pieces[..|pieces| - 1]) + pieces[|pieces| - 1]
  }

  /** How many pieces are shown, after k of them with length bytes: the first, all that
      are forced, and then as many as fit. */
  function ShownFrom(pieces: seq<Text>, forced: nat, k: nat, length: nat): (shown: nat)
    requires k <= |pieces|
    ensures k <= shown <= |pieces|
    decreases |pieces| - k
  {
    if k == |pieces| || (k >= forced && k > 0 && length + |pieces[k]| > MAX_DIGEST) then k
    else ShownFrom(pieces, forced, k + 1, length + |pieces[k]|)
  }

  function Shown(p: Parts, forced: nat): nat { ShownFrom(p.pieces, forced, 0, 0) }

  /** note words the number of differences not shown. */
  function Line(p: Parts, forced: nat, note: nat -> Text): Text {
    var shown := Shown(p, forced);
    Concatenated(p.pieces[..shown]) + if shown < |p.pieces| then note(|p.pieces| - shown) else p.trailing
  }

  lemma {:induction false} ForcedAreShown(pieces: seq<Text>, forced: nat, k: nat, length: nat)
    requires k <= |pieces|
    ensures ShownFrom(pieces, forced, k, length) >= if forced < |pieces| then forced else |pieces|
    decreases |pieces| - k
  {
    if !(k == |pieces| || (k >= forced && k > 0 && length + |pieces[k]| > MAX_DIGEST)) {
      ForcedAreShown(pieces, forced, k + 1, length + |pieces[k]|);
    }
  }

  /** How many bytes the first n pieces come to. */
  function Length(pieces: seq<Text>, n: nat): nat
    requires n <= |pieces|
  {
    |Concatenated(pieces[..n])|
  }

  lemma LengthNext(pieces: seq<Text>, n: nat)
    requires n < |pieces|
    ensures Length(pieces, n + 1) == Length(pieces, n) + |pieces[n]|
  {
    assert pieces[..n + 1][..n] == pieces[..n];
  }

  /** The line is filled and not overfilled: past the first piece and the forced ones every
      shown piece ends within the limit, and the first hidden one would not. */
  ghost predicate Filled(pieces: seq<Text>, forced: nat, k: nat, shown: nat) {
    && k <= shown <= |pieces| && (shown == 0 ==> pieces == [])
    && (forall n :: k < n <= shown && n > 1 && n > forced ==> Length(pieces, n) <= MAX_DIGEST)
    && (shown < |pieces| ==> forced <= shown && Length(pieces, shown + 1) > MAX_DIGEST)
  }

  lemma {:induction false} FilledFrom(pieces: seq<Text>, forced: nat, k: nat)
    requires k <= |pieces|
    ensures Filled(pieces, forced, k, ShownFrom(pieces, forced, k, Length(pieces, k)))
    decreases |pieces| - k
  {
    if k < |pieces| {
      LengthNext(pieces, k);
      FilledFrom(pieces, forced, k + 1);
    }
  }

  /** What a line shows fills it. */
  lemma ShownFills(p: Parts, forced: nat)
    ensures Filled(p.pieces, forced, 0, Shown(p, forced))
  {
    FilledFrom(p.pieces, forced, 0);
  }

  /** Forcing more never shows less. */
  lemma {:induction false} ForcingGrows(pieces: seq<Text>, forced: nat, more: nat, k: nat, length: nat)
    requires k <= |pieces| && forced <= more
    ensures ShownFrom(pieces, forced, k, length) <= ShownFrom(pieces, more, k, length)
    decreases |pieces| - k
  {
    if !(k == |pieces| || (k >= forced && k > 0 && length + |pieces[k]| > MAX_DIGEST)) {
      ForcingGrows(pieces, forced, more, k + 1, length + |pieces[k]|);
    }
  }

  /** Renders a line piece by piece. */
  method Render(p: Parts, forced: nat, note: nat -> Text) returns (line: Text, shown: nat)
    ensures shown == Shown(p, forced) && line == Line(p, forced, note)
  {
    line, shown := [], 0;
    ghost var final := Shown(p, forced);
    while shown < |p.pieces| && (shown < forced || shown == 0 || |line| + |p.pieces[shown]| <= MAX_DIGEST)
      invariant shown <= |p.pieces| && line == Concatenated(p.pieces[..shown])
      invariant ShownFrom(p.pieces, forced, shown, |line|) == final
    {
      assert p.pieces[..shown + 1][..shown] == p.pieces[..shown];
      line := line + p.pieces[shown];
      shown := shown + 1;
    }
    line := line + if shown < |p.pieces| then note(|p.pieces| - shown) else p.trailing;
  }

  // -------------------------------------------------------------- reconciliation

  /** What a scan over all pairs found. */
  datatype Finding = Nothing | Pair(a: nat, b: nat, d: nat)

  datatype State = State(forced: seq<nat>, lines: seq<Text>, shown: seq<nat>)

  /** Two safe different bodies share a line. */
  predicate Collide(bodies: Bodies, parts: seq<Parts>, lines: seq<Text>, a: nat, b: nat) {
    && a < |bodies| && b < |bodies| && |lines| == |parts| == |bodies|
    && parts[a].safe && parts[b].safe && lines[a] == lines[b] && bodies[a] != bodies[b]
  }

  /** Lines and counts are what the forced numbers render to. */
  ghost predicate Rendered(s: State, parts: seq<Parts>, total: nat, note: nat -> Text) {
    && |s.forced| == |s.lines| == |s.shown| == |parts|
    && forall j :: 0 <= j < |parts| ==>
         s.forced[j] <= total && s.lines[j] == Line(parts[j], s.forced[j], note) &&
         s.shown[j] == Shown(parts[j], s.forced[j])
  }

  /** A difference between a and b is in a region that both lines show. */
  ghost predicate Visible(bodies: Bodies, changes: seq<Segment>, shown: seq<nat>, a: nat, b: nat) {
    a < |shown| && b < |shown| &&
    exists d: nat :: d < |changes| && !Agree(bodies, changes[d], a, b) && d < shown[a] && d < shown[b]
  }

  ghost predicate Resolved(bodies: Bodies, changes: seq<Segment>, shown: seq<nat>, pairs: set<(nat, nat)>) {
    forall p :: p in pairs ==> Visible(bodies, changes, shown, p.0, p.1)
  }

  ghost predicate Grown(before: seq<nat>, after: seq<nat>) {
    |before| == |after| && forall j :: 0 <= j < |before| ==> before[j] <= after[j]
  }

  lemma ResolvedGrows(bodies: Bodies, changes: seq<Segment>, before: seq<nat>, after: seq<nat>, pairs: set<(nat, nat)>)
    requires Resolved(bodies, changes, before, pairs) && Grown(before, after)
    ensures Resolved(bodies, changes, after, pairs)
  {
    forall p | p in pairs
      ensures Visible(bodies, changes, after, p.0, p.1)
    {
      var d: nat :| d < |changes| && !Agree(bodies, changes[d], p.0, p.1) && d < before[p.0] && d < before[p.1];
    }
  }

  /** Forces body j to show at least need regions. */
  method Extend(s: State, parts: seq<Parts>, note: nat -> Text, j: nat, need: nat, ghost total: nat) returns (t: State)
    requires Rendered(s, parts, total, note) && j < |parts| && need <= total
    ensures Rendered(t, parts, total, note) && Grown(s.shown, t.shown)
    ensures Raised(s.forced, t.forced, j, j, need)
  {
    if s.forced[j] >= need {
      return s;
    }
    var line, shown := Render(parts[j], need, note);
    ForcingGrows(parts[j].pieces, s.forced[j], need, 0, 0);
    t := State(s.forced[j := need], s.lines[j := line], s.shown[j := shown]);
  }

  /** Region d is the first in which two safe bodies differ. */
  ghost predicate FirstApart(bodies: Bodies, changes: seq<Segment>, parts: seq<Parts>, a: nat, b: nat, d: nat) {
    && a < |parts| && b < |parts| && parts[a].safe && parts[b].safe && d < |changes|
    && !Agree(bodies, changes[d], a, b) && forall k :: 0 <= k < d ==> Agree(bodies, changes[k], a, b)
  }

  /** A collision whose first difference one of the two lines does not show. */
  ghost predicate Fixable(bodies: Bodies, changes: seq<Segment>, parts: seq<Parts>, s: State, f: Finding) {
    && f.Pair? && f.a < f.b < |bodies| && |s.shown| == |bodies| && Collide(bodies, parts, s.lines, f.a, f.b)
    && FirstApart(bodies, changes, parts, f.a, f.b, f.d) && (f.d >= s.shown[f.a] || f.d >= s.shown[f.b])
  }

  /** A line is forced only up to the first difference from some other body. */
  ghost predicate Warranted(bodies: Bodies, changes: seq<Segment>, parts: seq<Parts>, forced: seq<nat>) {
    forall j: nat :: j < |forced| && forced[j] > 0 ==> WarrantedAt(bodies, changes, parts, j, forced[j] - 1)
  }

  ghost predicate WarrantedAt(bodies: Bodies, changes: seq<Segment>, parts: seq<Parts>, j: nat, d: nat) {
    exists k: nat :: FirstApart(bodies, changes, parts, j, k, d) || FirstApart(bodies, changes, parts, k, j, d)
  }

  lemma ApartWarrants(bodies: Bodies, changes: seq<Segment>, parts: seq<Parts>, a: nat, b: nat, d: nat)
    requires FirstApart(bodies, changes, parts, a, b, d)
    ensures WarrantedAt(bodies, changes, parts, a, d) && WarrantedAt(bodies, changes, parts, b, d)
  {
  }

  /** The numbers of a and b are raised to at least need, and no others. */
  predicate Raised(before: seq<nat>, after: seq<nat>, a: nat, b: nat, need: nat) {
    && |before| == |after|
    && forall j :: 0 <= j < |before| ==>
         after[j] == if (j == a || j == b) && before[j] < need then need else before[j]
  }

  lemma FixingIsWarranted(bodies: Bodies, changes: seq<Segment>, parts: seq<Parts>, before: seq<nat>, after: seq<nat>,
                          a: nat, b: nat, d: nat)
    requires Warranted(bodies, changes, parts, before) && FirstApart(bodies, changes, parts, a, b, d)
    requires Raised(before, after, a, b, d + 1)
    ensures Warranted(bodies, changes, parts, after)
  {
    ApartWarrants(bodies, changes, parts, a, b, d);
  }

  /** Every collision before pair (a, b), row by row, is among the resolved pairs. */
  ghost predicate ScannedTo(bodies: Bodies, parts: seq<Parts>, lines: seq<Text>, pairs: set<(nat, nat)>, a: nat,
                            b: nat) {
    forall i: nat, j: nat :: i < j && (i < a || (i == a && j < b)) && Collide(bodies, parts, lines, i, j) ==>
      (i, j) in pairs
  }

  /** Examines one pair of bodies. */
  method Examine(bodies: Bodies, ghost segments: seq<Segment>, changes: seq<Segment>, parts: seq<Parts>, s: State,
                 pairs: set<(nat, nat)>, a: nat, b: nat)
    returns (f: Finding, resolved: set<(nat, nat)>)
    requires IsSkeleton(bodies, segments) && changes == Changes(segments) &&
             |parts| == |bodies| == |s.lines| == |s.shown|
    requires a < b < |bodies| && Resolved(bodies, changes, s.shown, pairs)
    ensures pairs <= resolved && Resolved(bodies, changes, s.shown, resolved)
    ensures if f.Pair? then Fixable(bodies, changes, parts, s, f)
            else Collide(bodies, parts, s.lines, a, b) ==> (a, b) in resolved
  {
    f, resolved := Nothing, pairs;
    if !parts[a].safe || !parts[b].safe || s.lines[a] != s.lines[b] || bodies[a] == bodies[b] || (a, b) in pairs {
      return;
    }
    var d := FirstDifference(bodies, changes, a, b);
    ChangesDecide(bodies, segments, a, b);
    if d < 0 || (d < s.shown[a] && d < s.shown[b]) {
      resolved := resolved + {(a, b)};
    } else {
      f := Pair(a, b, d);
    }
  }

  lemma ScannedPair(bodies: Bodies, parts: seq<Parts>, lines: seq<Text>, before: set<(nat, nat)>,
                    after: set<(nat, nat)>, a: nat, b: nat)
    requires ScannedTo(bodies, parts, lines, before, a, b) && before <= after
    requires Collide(bodies, parts, lines, a, b) ==> (a, b) in after
    ensures ScannedTo(bodies, parts, lines, after, a, b + 1)
  {
  }

  lemma ScannedRow(bodies: Bodies, parts: seq<Parts>, lines: seq<Text>, pairs: set<(nat, nat)>, a: nat)
    requires ScannedTo(bodies, parts, lines, pairs, a, |bodies|)
    ensures ScannedTo(bodies, parts, lines, pairs, a + 1, 0)
  {
  }

  lemma RowBegins(bodies: Bodies, parts: seq<Parts>, lines: seq<Text>, pairs: set<(nat, nat)>, a: nat)
    requires ScannedTo(bodies, parts, lines, pairs, a, 0)
    ensures ScannedTo(bodies, parts, lines, pairs, a, a + 1)
  {
  }

  /** Examines the pairs of body a with every later body. */
  method ScanRow(bodies: Bodies, ghost segments: seq<Segment>, changes: seq<Segment>, parts: seq<Parts>, s: State,
                 pairs: set<(nat, nat)>, a: nat)
    returns (f: Finding, resolved: set<(nat, nat)>)
    requires IsSkeleton(bodies, segments) && changes == Changes(segments) &&
             |parts| == |bodies| == |s.lines| == |s.shown|
    requires Resolved(bodies, changes, s.shown, pairs) && a < |bodies| && ScannedTo(bodies, parts, s.lines, pairs, a, 0)
    ensures pairs <= resolved && Resolved(bodies, changes, s.shown, resolved)
    ensures if f.Pair? then Fixable(bodies, changes, parts, s, f)
            else ScannedTo(bodies, parts, s.lines, resolved, a + 1, 0)
  {
    resolved := pairs;
    RowBegins(bodies, parts, s.lines, pairs, a);
    for b := a + 1 to |bodies|
      invariant pairs <= resolved && Resolved(bodies, changes, s.shown, resolved)
      invariant ScannedTo(bodies, parts, s.lines, resolved, a, b)
    {
      ghost var before := resolved;
      f, resolved := Examine(bodies, segments, changes, parts, s, resolved, a, b);
      if f.Pair? {
        return;
      }
      ScannedPair(bodies, parts, s.lines, before, resolved, a, b);
    }
    ScannedRow(bodies, parts, s.lines, resolved, a);
    f := Nothing;
  }

  /** Looks for a fixable collision; without one every collision is resolved. */
  method Scan(bodies: Bodies, ghost segments: seq<Segment>, changes: seq<Segment>, parts: seq<Parts>, s: State,
              pairs: set<(nat, nat)>)
    returns (f: Finding, resolved: set<(nat, nat)>)
    requires IsSkeleton(bodies, segments) && changes == Changes(segments) &&
             |parts| == |bodies| == |s.lines| == |s.shown|
    requires Resolved(bodies, changes, s.shown, pairs)
    ensures Resolved(bodies, changes, s.shown, resolved)
    ensures if f.Pair? then Fixable(bodies, changes, parts, s, f)
            else ScannedTo(bodies, parts, s.lines, resolved, |bodies|, 0)
  {
    resolved := pairs;
    for a := 0 to |bodies|
      invariant Resolved(bodies, changes, s.shown, resolved) && ScannedTo(bodies, parts, s.lines, resolved, a, 0)
    {
      f, resolved := ScanRow(bodies, segments, changes, parts, s, resolved, a);
      if f.Pair? {
        return;
      }
    }
    f := Nothing;
  }

  /** The first rendering of every body, with nothing forced. */
  method RenderAll(parts: seq<Parts>, note: nat -> Text, ghost total: nat) returns (s: State)
    ensures Rendered(s, parts, total, note) && forall j :: 0 <= j < |s.forced| ==> s.forced[j] == 0
  {
    s := State([], [], []);
    for j := 0 to |parts|
      invariant |s.forced| == |s.lines| == |s.shown| == j
      invariant forall k :: 0 <= k < j ==>
                  s.forced[k] == 0 && s.lines[k] == Line(parts[k], 0, note) && s.shown[k] == Shown(parts[k], 0)
    {
      var line, shown := Render(parts[j], 0, note);
      s := State(s.forced + [0], s.lines + [line], s.shown + [shown]);
    }
  }

  /** A line that does not show region d has not been forced to. */
  lemma NotYetForced(s: State, parts: seq<Parts>, total: nat, note: nat -> Text, j: nat, d: nat)
    requires Rendered(s, parts, total, note) && j < |parts| && |parts[j].pieces| == total && s.shown[j] <= d < total
    ensures s.forced[j] < d + 1
  {
    ForcedAreShown(parts[j].pieces, s.forced[j], 0, 0);
  }

  lemma {:induction false} SumOfLarger(x: seq<nat>, y: seq<nat>, j: nat)
    requires Grown(x, y) && j < |x| && x[j] < y[j]
    ensures Sum(x) < Sum(y)
  {
    var n := |x| - 1;
    if j == n {
      SumMonotone(x[..n], y[..n]);
    } else {
      SumOfLarger(x[..n], y[..n], j);
    }
  }

  /** A line shows what it is forced to. */
  lemma ForcedIsShown(s: State, parts: seq<Parts>, total: nat, note: nat -> Text, j: nat, d: nat)
    requires Rendered(s, parts, total, note) && j < |parts| && |parts[j].pieces| == total && d < total
    requires s.forced[j] >= d + 1
    ensures s.shown[j] > d
  {
    ForcedAreShown(parts[j].pieces, s.forced[j], 0, 0);
  }

  /** Extends both lines of a fixable pair up to their first difference, and no others; one
      of the two shows strictly more. */
  method Fix(bodies: Bodies, changes: seq<Segment>, parts: seq<Parts>, note: nat -> Text, s: State, f: Finding)
    returns (t: State)
    requires Rendered(s, parts, |changes|, note) && |parts| == |bodies| && Fixable(bodies, changes, parts, s, f)
    requires forall j :: 0 <= j < |parts| ==> |parts[j].pieces| == |changes|
    ensures Rendered(t, parts, |changes|, note) && Grown(s.shown, t.shown) && Sum(s.forced) < Sum(t.forced)
    ensures Raised(s.forced, t.forced, f.a, f.b, f.d + 1) && f.d < t.shown[f.a] && f.d < t.shown[f.b]
    ensures s.shown[f.a] < t.shown[f.a] || s.shown[f.b] < t.shown[f.b]
  {
    t := ExtendBoth(s, parts, note, f.a, f.b, f.d, |changes|);
  }

  /** Forces two lines to show region d, which one of them does not show. */
  method ExtendBoth(s: State, parts: seq<Parts>, note: nat -> Text, a: nat, b: nat, d: nat, ghost total: nat)
    returns (t: State)
    requires Rendered(s, parts, total, note) && a < |parts| && b < |parts| && d < total
    requires |parts[a].pieces| == |parts[b].pieces| == total && (d >= s.shown[a] || d >= s.shown[b])
    ensures Rendered(t, parts, total, note) && Grown(s.shown, t.shown) && Raised(s.forced, t.forced, a, b, d + 1)
    ensures Sum(s.forced) < Sum(t.forced) && d < t.shown[a] && d < t.shown[b]
  {
    t := ExtendTwice(s, parts, note, a, b, d, total);
    FixForcesMore(s, parts, total, note, a, b, d, t.forced);
    ForcedIsShown(t, parts, total, note, a, d);
    ForcedIsShown(t, parts, total, note, b, d);
  }

  method ExtendTwice(s: State, parts: seq<Parts>, note: nat -> Text, a: nat, b: nat, d: nat, ghost total: nat)
    returns (t: State)
    requires Rendered(s, parts, total, note) && a < |parts| && b < |parts| && d < total
    ensures Rendered(t, parts, total, note) && Grown(s.shown, t.shown) && Raised(s.forced, t.forced, a, b, d + 1)
  {
    var half := Extend(s, parts, note, a, d + 1, total);
    t := Extend(half, parts, note, b, d + 1, total);
  }

  lemma FixForcesMore(s: State, parts: seq<Parts>, total: nat, note: nat -> Text, a: nat, b: nat, d: nat,
                      after: seq<nat>)
    requires Rendered(s, parts, total, note) && a < |parts| && b < |parts| && d < total
    requires |parts[a].pieces| == |parts[b].pieces| == total && (d >= s.shown[a] || d >= s.shown[b])
    requires Raised(s.forced, after, a, b, d + 1)
    ensures Sum(s.forced) < Sum(after)
  {
    var j := if d >= s.shown[a] then a else b;
    NotYetForced(s, parts, total, note, j, d);
    SumOfLarger(s.forced, after, j);
  }

  lemma ForcedIsBounded(s: State, parts: seq<Parts>, total: nat, note: nat -> Text)
    requires Rendered(s, parts, total, note)
    ensures Sum(s.forced) <= total * |parts|
  {
    SumBounds(s.forced, 0, total);
  }

  /** One fix keeps what is resolved and warranted. */
  method Step(bodies: Bodies, changes: seq<Segment>, parts: seq<Parts>, note: nat -> Text, s: State, f: Finding,
              ghost resolved: set<(nat, nat)>)
    returns (t: State)
    requires Rendered(s, parts, |changes|, note) && |parts| == |bodies| && Fixable(bodies, changes, parts, s, f)
    requires forall j :: 0 <= j < |parts| ==> |parts[j].pieces| == |changes|
    requires Warranted(bodies, changes, parts, s.forced) && Resolved(bodies, changes, s.shown, resolved)
    ensures Rendered(t, parts, |changes|, note) && Sum(s.forced) < Sum(t.forced) <= |changes| * |bodies|
    ensures Warranted(bodies, changes, parts, t.forced) && Resolved(bodies, changes, t.shown, resolved)
  {
    t := Fix(bodies, changes, parts, note, s, f);
    ResolvedGrows(bodies, changes, s.shown, t.shown, resolved);
    FixingIsWarranted(bodies, changes, parts, s.forced, t.forced, f.a, f.b, f.d);
    ForcedIsBounded(t, parts, |changes|, note);
  }

  /** Extends colliding lines until none can be told apart by showing more. Then two
      different bodies share a line only if both lines already show a region in which
      the bodies differ. No line is forced beyond the first difference from some other
      body. The forced numbers grow and are bounded, so the loop ends. */
  method Reconcile(bodies: Bodies, ghost segments: seq<Segment>, changes: seq<Segment>, parts: seq<Parts>,
                   note: nat -> Text)
    returns (s: State)
    requires IsSkeleton(bodies, segments) && changes == Changes(segments) && |parts| == |bodies|
    requires forall j :: 0 <= j < |parts| ==> |parts[j].pieces| == |changes|
    ensures Rendered(s, parts, |changes|, note) && Warranted(bodies, changes, parts, s.forced)
    ensures forall a: nat, b: nat :: a < b && Collide(bodies, parts, s.lines, a, b) ==>
              Visible(bodies, changes, s.shown, a, b)
  {
    s := RenderAll(parts, note, |changes|);
    var resolved := {};
    while true
      invariant Rendered(s, parts, |changes|, note) && Warranted(bodies, changes, parts, s.forced)
      invariant Resolved(bodies, changes, s.shown, resolved)
      decreases |changes| * |bodies| - Sum(s.forced)
    {
      var f;
      f, resolved := Scan(bodies, segments, changes, parts, s, resolved);
      if f.Nothing? {
        return;
      }
      s := Step(bodies, changes, parts, note, s, f, resolved);
    }
  }
}
