/** A run of trials shared by several workers, which draw whole blocks of trials from
    one counter. */
module TrialRun {
  import opened Arithmetic
  import opened Sequences
  import opened Perms
  import opened Arrangement

  /** bound <= 0 leaves the run unbounded. */
  datatype Plan = Plan(bound: int, policy: Policy, n: nat) {
    ghost predicate Valid() { n > 0 }

    function Unit(): nat { policy.Unit(n) }

    function IndexAt(block: nat, offset: nat): nat { block * Unit() + offset }

    predicate BlockAvailable(block: nat)
      requires Unit() > 0
    {
      bound <= 0 || block <= (bound - 1) / Unit()
    }

    predicate TrialAvailable(index: int) { bound <= 0 || index < bound }
  }

  /** cycle and shift are -1 under a policy without balanced blocks. block and offset
      say where the index was drawn. */
  datatype Trial = Trial(index: nat, cycle: int, shift: int, arrangement: seq<int>, block: nat, offset: nat)

  datatype Worker =
    | Idle
    | Holding(block: nat, offset: nat)
    | Sending(block: nat, offset: nat, arrangement: seq<int>)
    | Finished

  /** bases[b] is the base permutation drawn for block b, and |bases| the shared
      counter. */
  datatype State =
    State(bases: seq<seq<int>>, workers: seq<Worker>, emitted: seq<Trial>, dispatched: seq<nat>, stopped: bool)

  datatype Step =
    | Draw(w: nat, base: seq<int>)
    | Dispatch(w: nat, arrangement: seq<int>)
    | Quit(w: nat)
    | Emit(w: nat)
    | Drop(w: nat)
    | Abort(w: nat)
    | Stop

  function Start(workers: nat): State { State([], seq(workers, _ => Idle), [], [], false) }

  /** The arrangement that the policy hands out at this offset of a block. */
  predicate Legal(p: Plan, base: seq<int>, offset: nat, arrangement: seq<int>) {
    && |arrangement| == p.n && IsPerm(arrangement)
    && (p.policy.Rotate? ==> arrangement == Rotated(base, offset))
    && (p.policy.Unarranged? ==> arrangement == Identity(p.n))
  }

  predicate Enabled(p: Plan, s: State, step: Step)
    requires p.Valid()
  {
    match step
    case Draw(w, base) => w < |s.workers| && s.workers[w].Idle? && |base| == p.n && IsPerm(base)
    case Dispatch(w, arrangement) =>
      && w < |s.workers| && s.workers[w].Holding? && !s.stopped && s.workers[w].block < |s.bases|
      && p.TrialAvailable(p.IndexAt(s.workers[w].block, s.workers[w].offset))
      && Legal(p, s.bases[s.workers[w].block], s.workers[w].offset, arrangement)
    case Quit(w) =>
      && w < |s.workers| && s.workers[w].Holding?
      && (s.stopped || !p.TrialAvailable(p.IndexAt(s.workers[w].block, s.workers[w].offset)))
    case Emit(w) => w < |s.workers| && s.workers[w].Sending?
    case Drop(w) => w < |s.workers| && s.workers[w].Sending? && s.stopped
    case Abort(w) => w < |s.workers| && (s.workers[w].Holding? || s.workers[w].Sending?)
    case Stop => true
  }

  function TrialOf(p: Plan, w: Worker): Trial
    requires w.Sending?
  {
    Trial(p.IndexAt(w.block, w.offset), if p.policy.Rotate? then w.block else -1,
          if p.policy.Rotate? then w.offset else -1, w.arrangement, w.block, w.offset)
  }

  function Next(p: Plan, s: State, step: Step): State
    requires p.Valid() && Enabled(p, s, step)
  {
    match step
    case Draw(w, base) =>
      s.(bases := s.bases + [base],
         workers := s.workers[w := if p.BlockAvailable(|s.bases|) then Holding(|s.bases|, 0) else Finished])
    case Dispatch(w, arrangement) =>
      var at := s.workers[w];
      s.(workers := s.workers[w := Sending(at.block, at.offset, arrangement)],
         dispatched := s.dispatched + [p.IndexAt(at.block, at.offset)])
    case Quit(w) => s.(workers := s.workers[w := Finished])
    case Emit(w) =>
      var at := s.workers[w];
      s.(workers := s.workers[w := if at.offset + 1 < p.Unit() then Holding(at.block, at.offset + 1) else Idle],
         emitted := s.emitted + [TrialOf(p, at)])
    case Drop(w) => s.(workers := s.workers[w := Finished])
    case Abort(w) => s.(workers := s.workers[w := Finished], stopped := true)
    case Stop => s.(stopped := true)
  }

  function Execute(p: Plan, workers: nat, steps: seq<Step>): Option<State>
    requires p.Valid()
  {
    if steps == [] then Some(Start(workers))
    else
      var before := Execute(p, workers, steps[..|steps| - 1]);
      var last := steps[|steps| - 1];
      if before.Some? && Enabled(p, before.value, last) then Some(Next(p, before.value, last)) else None
  }

  // ------------------------------------------------------------------ invariant

  /** The places emitted so far. */
  ghost function Places(emitted: seq<Trial>): set<(nat, nat)> {
    set k | 0 <= k < |emitted| :: (emitted[k].block, emitted[k].offset)
  }

  lemma PlacesAppend(emitted: seq<Trial>, t: Trial)
    ensures Places(emitted + [t]) == Places(emitted) + {(t.block, t.offset)}
  {
    var after := emitted + [t];
    assert forall k :: 0 <= k < |emitted| ==> after[k] == emitted[k];
    assert after[|emitted|] == t;
  }

  ghost predicate TrialOk(p: Plan, bases: seq<seq<int>>, t: Trial) {
    && t.block < |bases| && t.offset < p.Unit() && t.index == p.IndexAt(t.block, t.offset) && p.TrialAvailable(t.index)
    && Legal(p, bases[t.block], t.offset, t.arrangement)
    && (if p.policy.Rotate? then t.cycle == t.block && t.shift == t.offset else t.cycle == -1 && t.shift == -1)
  }

  ghost predicate EmittedOk(p: Plan, bases: seq<seq<int>>, emitted: seq<Trial>) {
    && (forall k :: 0 <= k < |emitted| ==> TrialOk(p, bases, emitted[k]))
    && (forall i, j :: 0 <= i < j < |emitted| ==>
         (emitted[i].block, emitted[i].offset) != (emitted[j].block, emitted[j].offset))
  }

  predicate Active(w: Worker) { w.Holding? || w.Sending? }

  predicate Owns(w: Worker, block: nat) { Active(w) && w.block == block }

  /** An active worker has emitted exactly the places of its block before its own. */
  ghost predicate WorkerOk(p: Plan, bases: seq<seq<int>>, places: set<(nat, nat)>, w: Worker)
    requires p.Valid()
  {
    Active(w) ==>
      && w.block < |bases| && w.offset < p.Unit() && p.BlockAvailable(w.block)
      && (forall j: nat :: j < p.Unit() ==> ((w.block, j) in places <==> j < w.offset))
      && (w.Sending? ==>
           Legal(p, bases[w.block], w.offset, w.arrangement) && p.TrialAvailable(p.IndexAt(w.block, w.offset)))
  }

  ghost predicate WorkersOk(p: Plan, bases: seq<seq<int>>, places: set<(nat, nat)>, workers: seq<Worker>)
    requires p.Valid()
  {
    && (forall w :: 0 <= w < |workers| ==> WorkerOk(p, bases, places, workers[w]))
    && (forall v, w :: 0 <= v < w < |workers| && Active(workers[v]) && Active(workers[w]) ==>
         workers[v].block != workers[w].block)
  }

  ghost predicate Owned(workers: seq<Worker>, block: nat) { exists w :: 0 <= w < |workers| && Owns(workers[w], block) }

  ghost predicate BlockDone(p: Plan, places: set<(nat, nat)>, block: nat) {
    forall j: nat :: j < p.Unit() && p.TrialAvailable(p.IndexAt(block, j)) ==> (block, j) in places
  }

  /** A drawn block is in some worker's hands or has been emitted in full. */
  ghost predicate BlocksOk(p: Plan, drawn: nat, places: set<(nat, nat)>, workers: seq<Worker>)
    requires p.Valid()
  {
    forall b: nat :: b < drawn && p.BlockAvailable(b) ==> Owned(workers, b) || BlockDone(p, places, b)
  }

  /** A worker has finished only because no block is left. */
  ghost predicate FinishOk(p: Plan, drawn: nat, workers: seq<Worker>)
    requires p.Valid()
  {
    forall w :: 0 <= w < |workers| && workers[w].Finished? ==> !p.BlockAvailable(drawn)
  }

  ghost predicate BasesOk(p: Plan, bases: seq<seq<int>>) {
    forall b :: 0 <= b < |bases| ==> |bases[b]| == p.n && IsPerm(bases[b])
  }

  ghost predicate DispatchedOk(p: Plan, dispatched: seq<nat>) {
    forall k :: 0 <= k < |dispatched| ==> p.TrialAvailable(dispatched[k])
  }

  ghost predicate Inv(p: Plan, s: State)
    requires p.Valid()
  {
    && BasesOk(p, s.bases) && EmittedOk(p, s.bases, s.emitted) && WorkersOk(p, s.bases, Places(s.emitted), s.workers)
    && DispatchedOk(p, s.dispatched)
    && (!s.stopped ==> BlocksOk(p, |s.bases|, Places(s.emitted), s.workers) && FinishOk(p, |s.bases|, s.workers))
  }

  /** A block is available exactly if its first trial is. */
  lemma BlockByIndex(p: Plan, b: nat)
    requires p.Valid()
    ensures p.BlockAvailable(b) <==> p.TrialAvailable(p.IndexAt(b, 0))
  {
    if p.bound > 0 {
      QuotientBound(p.bound - 1, p.Unit(), b);
    }
  }

  lemma QuotientBound(x: nat, u: nat, b: nat)
    requires u > 0
    ensures b <= x / u <==> b * u <= x
  {
    var q := x / u;
    assert x == q * u + x % u;
    if b <= q {
      MulMonotone(b, q, u);
    } else {
      MulMonotone(q + 1, b, u);
      assert (q + 1) * u == q * u + u;
    }
  }

  lemma LaterBlocksAreUnavailable(p: Plan, b: nat, offset: nat, later: nat)
    requires p.Valid() && offset < p.Unit() && b < later && !p.TrialAvailable(p.IndexAt(b, offset))
    ensures !p.BlockAvailable(later)
  {
    BlockByIndex(p, later);
    MulMonotone(b + 1, later, p.Unit());
    assert (b + 1) * p.Unit() == b * p.Unit() + p.Unit();
  }

  lemma NextBlockIsUnavailable(p: Plan, b: nat)
    requires p.Valid() && !p.BlockAvailable(b)
    ensures !p.BlockAvailable(b + 1)
  {
    BlockByIndex(p, b);
    LaterBlocksAreUnavailable(p, b, 0, b + 1);
  }

  // ---------------------------------------------------------------------- steps

  lemma OwnedElsewhere(workers: seq<Worker>, w: nat, after: Worker, block: nat)
    requires w < |workers| && Owned(workers, block) && (Owns(workers[w], block) ==> Owns(after, block))
    ensures Owned(workers[w := after], block)
  {
    var v :| 0 <= v < |workers| && Owns(workers[v], block);
    assert Owns(workers[w := after][v], block);
  }

  /** Replacing a worker keeps every block in hand or done if its own block is. */
  lemma ReplaceWorker(p: Plan, drawn: nat, places: set<(nat, nat)>, workers: seq<Worker>, w: nat, after: Worker)
    requires p.Valid() && w < |workers| && BlocksOk(p, drawn, places, workers)
    requires Active(workers[w]) ==> Owns(after, workers[w].block) || BlockDone(p, places, workers[w].block)
    ensures BlocksOk(p, drawn, places, workers[w := after])
  {
    forall b: nat | b < drawn && p.BlockAvailable(b)
      ensures Owned(workers[w := after], b) || BlockDone(p, places, b)
    {
      if Owned(workers, b) && !BlockDone(p, places, b) {
        OwnedElsewhere(workers, w, after, b);
      }
    }
  }

  lemma MorePlaces(p: Plan, drawn: nat, places: set<(nat, nat)>, more: set<(nat, nat)>, workers: seq<Worker>)
    requires p.Valid() && BlocksOk(p, drawn, places, workers) && places <= more
    ensures BlocksOk(p, drawn, more, workers)
  {
    forall b: nat | b < drawn && p.BlockAvailable(b)
      ensures Owned(workers, b) || BlockDone(p, more, b)
    {
      if BlockDone(p, places, b) {
        assert BlockDone(p, more, b);
      }
    }
  }

  lemma MoreBases(p: Plan, bases: seq<seq<int>>, base: seq<int>, emitted: seq<Trial>)
    requires EmittedOk(p, bases, emitted)
    ensures EmittedOk(p, bases + [base], emitted)
  {
    forall k | 0 <= k < |emitted|
      ensures TrialOk(p, bases + [base], emitted[k])
    {
      assert TrialOk(p, bases, emitted[k]);
    }
  }

  lemma EmittedPlaces(p: Plan, bases: seq<seq<int>>, emitted: seq<Trial>)
    requires EmittedOk(p, bases, emitted)
    ensures forall place :: place in Places(emitted) ==> place.0 < |bases|
  {
    forall place | place in Places(emitted)
      ensures place.0 < |bases|
    {
      var k :| 0 <= k < |emitted| && place == (emitted[k].block, emitted[k].offset);
      assert TrialOk(p, bases, emitted[k]);
    }
  }

  lemma WorkersDraw(p: Plan, bases: seq<seq<int>>, base: seq<int>, emitted: seq<Trial>, workers: seq<Worker>, w: nat)
    requires p.Valid() && EmittedOk(p, bases, emitted) && w < |workers|
    requires WorkersOk(p, bases, Places(emitted), workers)
    ensures var after := if p.BlockAvailable(|bases|) then Holding(|bases|, 0) else Finished;
            WorkersOk(p, bases + [base], Places(emitted), workers[w := after])
  {
    EmittedPlaces(p, bases, emitted);
    var after := workers[w := if p.BlockAvailable(|bases|) then Holding(|bases|, 0) else Finished];
    forall v | 0 <= v < |workers|
      ensures WorkerOk(p, bases + [base], Places(emitted), after[v])
    {
      assert WorkerOk(p, bases, Places(emitted), workers[v]);
    }
    forall v | 0 <= v < |workers| && v != w && Active(workers[v])
      ensures workers[v].block < |bases|
    {
      assert WorkerOk(p, bases, Places(emitted), workers[v]);
    }
  }

  lemma BlocksDraw(p: Plan, drawn: nat, places: set<(nat, nat)>, workers: seq<Worker>, w: nat)
    requires p.Valid() && w < |workers| && workers[w].Idle? && BlocksOk(p, drawn, places, workers) &&
             FinishOk(p, drawn, workers)
    ensures var after := workers[w := if p.BlockAvailable(drawn) then Holding(drawn, 0) else Finished];
            BlocksOk(p, drawn + 1, places, after) && FinishOk(p, drawn + 1, after)
  {
    var worker := if p.BlockAvailable(drawn) then Holding(drawn, 0) else Finished;
    var after := workers[w := worker];
    ReplaceWorker(p, drawn, places, workers, w, worker);
    if p.BlockAvailable(drawn) {
      assert Owns(after[w], drawn);
    } else {
      NextBlockIsUnavailable(p, drawn);
    }
  }

  lemma DrawKeeps(p: Plan, s: State, w: nat, base: seq<int>)
    requires p.Valid() && Inv(p, s) && Enabled(p, s, Draw(w, base))
    ensures Inv(p, Next(p, s, Draw(w, base)))
  {
    MoreBases(p, s.bases, base, s.emitted);
    WorkersDraw(p, s.bases, base, s.emitted, s.workers, w);
    if !s.stopped {
      BlocksDraw(p, |s.bases|, Places(s.emitted), s.workers, w);
    }
  }

  /** Replacing one worker by one that holds the same block, or none. */
  lemma WorkersReplace(p: Plan, bases: seq<seq<int>>, places: set<(nat, nat)>, workers: seq<Worker>, w: nat,
                       after: Worker)
    requires p.Valid() && WorkersOk(p, bases, places, workers) && w < |workers| && WorkerOk(p, bases, places, after)
    requires Active(after) ==> Owns(workers[w], after.block)
    ensures WorkersOk(p, bases, places, workers[w := after])
  {
  }

  lemma DispatchKeeps(p: Plan, s: State, w: nat, arrangement: seq<int>)
    requires p.Valid() && Inv(p, s) && Enabled(p, s, Dispatch(w, arrangement))
    ensures Inv(p, Next(p, s, Dispatch(w, arrangement)))
  {
    var at := s.workers[w];
    var after := Sending(at.block, at.offset, arrangement);
    assert WorkerOk(p, s.bases, Places(s.emitted), at);
    WorkersReplace(p, s.bases, Places(s.emitted), s.workers, w, after);
    ReplaceWorker(p, |s.bases|, Places(s.emitted), s.workers, w, after);
  }

  lemma QuitBlockDone(p: Plan, bases: seq<seq<int>>, places: set<(nat, nat)>, at: Worker)
    requires p.Valid() && Active(at) && WorkerOk(p, bases, places, at)
    requires !p.TrialAvailable(p.IndexAt(at.block, at.offset))
    ensures BlockDone(p, places, at.block) && !p.BlockAvailable(|bases|)
  {
    LaterBlocksAreUnavailable(p, at.block, at.offset, |bases|);
  }

  lemma QuitKeeps(p: Plan, s: State, w: nat)
    requires p.Valid() && Inv(p, s) && Enabled(p, s, Quit(w))
    ensures Inv(p, Next(p, s, Quit(w)))
  {
    WorkersReplace(p, s.bases, Places(s.emitted), s.workers, w, Finished);
    if !s.stopped {
      assert WorkerOk(p, s.bases, Places(s.emitted), s.workers[w]);
      QuitBlockDone(p, s.bases, Places(s.emitted), s.workers[w]);
      ReplaceWorker(p, |s.bases|, Places(s.emitted), s.workers, w, Finished);
    }
  }

  lemma LeaveKeeps(p: Plan, s: State, w: nat)
    requires p.Valid() && Inv(p, s) && w < |s.workers|
    ensures Inv(p, s.(workers := s.workers[w := Finished], stopped := true))
  {
    WorkersReplace(p, s.bases, Places(s.emitted), s.workers, w, Finished);
  }

  lemma EmittedGrows(p: Plan, bases: seq<seq<int>>, emitted: seq<Trial>, at: Worker)
    requires p.Valid() && EmittedOk(p, bases, emitted) && at.Sending? && WorkerOk(p, bases, Places(emitted), at)
    ensures EmittedOk(p, bases, emitted + [TrialOf(p, at)])
  {
    forall k | 0 <= k < |emitted|
      ensures (emitted[k].block, emitted[k].offset) != (at.block, at.offset)
    {
      assert (emitted[k].block, emitted[k].offset) in Places(emitted);
    }
    assert TrialOk(p, bases, TrialOf(p, at));
  }

  lemma WorkersEmit(p: Plan, bases: seq<seq<int>>, places: set<(nat, nat)>, workers: seq<Worker>, w: nat)
    requires p.Valid() && WorkersOk(p, bases, places, workers) && w < |workers| && workers[w].Sending?
    ensures var at := workers[w];
            var after := if at.offset + 1 < p.Unit() then Holding(at.block, at.offset + 1) else Idle;
            WorkersOk(p, bases, places + {(at.block, at.offset)}, workers[w := after])
  {
    var at := workers[w];
    var after := workers[w := if at.offset + 1 < p.Unit() then Holding(at.block, at.offset + 1) else Idle];
    assert WorkerOk(p, bases, places, at);
    forall v | 0 <= v < |workers|
      ensures WorkerOk(p, bases, places + {(at.block, at.offset)}, after[v])
    {
      assert WorkerOk(p, bases, places, workers[v]);
    }
  }

  lemma BlocksEmit(p: Plan, bases: seq<seq<int>>, places: set<(nat, nat)>, workers: seq<Worker>, w: nat)
    requires p.Valid() && BlocksOk(p, |bases|, places, workers) && w < |workers| && workers[w].Sending?
    requires WorkerOk(p, bases, places, workers[w])
    ensures var at := workers[w];
            var after := if at.offset + 1 < p.Unit() then Holding(at.block, at.offset + 1) else Idle;
            BlocksOk(p, |bases|, places + {(at.block, at.offset)}, workers[w := after])
  {
    var at := workers[w];
    var after := if at.offset + 1 < p.Unit() then Holding(at.block, at.offset + 1) else Idle;
    MorePlaces(p, |bases|, places, places + {(at.block, at.offset)}, workers);
    ReplaceWorker(p, |bases|, places + {(at.block, at.offset)}, workers, w, after);
  }

  lemma EmitKeeps(p: Plan, s: State, w: nat)
    requires p.Valid() && Inv(p, s) && Enabled(p, s, Emit(w))
    ensures Inv(p, Next(p, s, Emit(w)))
  {
    var at := s.workers[w];
    assert WorkerOk(p, s.bases, Places(s.emitted), at);
    PlacesAppend(s.emitted, TrialOf(p, at));
    EmittedGrows(p, s.bases, s.emitted, at);
    WorkersEmit(p, s.bases, Places(s.emitted), s.workers, w);
    if !s.stopped {
      BlocksEmit(p, s.bases, Places(s.emitted), s.workers, w);
    }
  }

  lemma StepKeeps(p: Plan, s: State, step: Step)
    requires p.Valid() && Inv(p, s) && Enabled(p, s, step)
    ensures Inv(p, Next(p, s, step))
  {
    match step
    case Draw(w, base) => DrawKeeps(p, s, w, base);
    case Dispatch(w, arrangement) => DispatchKeeps(p, s, w, arrangement);
    case Quit(w) => QuitKeeps(p, s, w);
    case Emit(w) => EmitKeeps(p, s, w);
    case Drop(w) => LeaveKeeps(p, s, w);
    case Abort(w) => LeaveKeeps(p, s, w);
    case Stop =>
  }

  lemma {:induction false} RunInvariant(p: Plan, workers: nat, steps: seq<Step>)
    requires p.Valid() && Execute(p, workers, steps).Some?
    ensures Inv(p, Execute(p, workers, steps).value)
  {
    if steps != [] {
      RunInvariant(p, workers, steps[..|steps| - 1]);
      StepKeeps(p, Execute(p, workers, steps[..|steps| - 1]).value, steps[|steps| - 1]);
    }
  }

  // --------------------------------------------------------------- main results

  function Indices(emitted: seq<Trial>): (r: seq<int>)
    ensures |r| == |emitted|
  {
    seq(|emitted|, k requires 0 <= k < |emitted| => emitted[k].index)
  }

  /** An index determines its place. */
  lemma PlaceOfIndex(p: Plan, a: nat, i: nat, b: nat, j: nat)
    requires p.Valid() && i < p.Unit() && j < p.Unit() && p.IndexAt(a, i) == p.IndexAt(b, j)
    ensures a == b && i == j
  {
    if a < b {
      Apart(a, b, i, j, p.Unit());
    } else if b < a {
      Apart(b, a, j, i, p.Unit());
    }
  }

  lemma Apart(a: nat, b: nat, i: nat, j: nat, u: nat)
    requires a < b && i < u
    ensures a * u + i < b * u + j
  {
    MulMonotone(a + 1, b, u);
    assert (a + 1) * u == a * u + u;
  }

  /** In every run no index is emitted twice, and none is dispatched or emitted at or
      beyond the bound. */
  lemma NoIndexTwice(p: Plan, workers: nat, steps: seq<Step>)
    requires p.Valid() && Execute(p, workers, steps).Some?
    ensures var s := Execute(p, workers, steps).value;
            && Distinct(Indices(s.emitted))
            && (forall k :: 0 <= k < |s.emitted| ==> p.TrialAvailable(s.emitted[k].index))
            && (forall k :: 0 <= k < |s.dispatched| ==> p.TrialAvailable(s.dispatched[k]))
  {
    RunInvariant(p, workers, steps);
    var s := Execute(p, workers, steps).value;
    forall i, j | 0 <= i < j < |s.emitted|
      ensures s.emitted[i].index != s.emitted[j].index
    {
      assert TrialOk(p, s.bases, s.emitted[i]) && TrialOk(p, s.bases, s.emitted[j]);
      if s.emitted[i].index == s.emitted[j].index {
        PlaceOfIndex(p, s.emitted[i].block, s.emitted[i].offset, s.emitted[j].block, s.emitted[j].offset);
      }
    }
    forall k | 0 <= k < |s.emitted|
      ensures p.TrialAvailable(s.emitted[k].index)
    {
      assert TrialOk(p, s.bases, s.emitted[k]);
    }
  }

  predicate AllFinished(s: State) { forall w :: 0 <= w < |s.workers| ==> s.workers[w].Finished? }

  /** A bounded run that ends without a stop has emitted this index. */
  lemma IndexEmitted(p: Plan, s: State, i: nat)
    requires p.Valid() && Inv(p, s) && AllFinished(s) && |s.workers| > 0 && !s.stopped && i < p.bound
    ensures i in Elements(Indices(s.emitted))
  {
    var b, j := PlaceOf(p, i);
    EarlierTrialAvailable(p, b, j);
    BlockByIndex(p, b);
    assert s.workers[0].Finished?;
    BlockDrawn(p, b, |s.bases|);
    assert !Owned(s.workers, b);
    assert (b, j) in Places(s.emitted);
    var k :| 0 <= k < |s.emitted| && (b, j) == (s.emitted[k].block, s.emitted[k].offset);
    assert TrialOk(p, s.bases, s.emitted[k]);
    assert Indices(s.emitted)[k] == i;
  }

  lemma PlaceOf(p: Plan, i: nat) returns (b: nat, j: nat)
    requires p.Valid()
    ensures j < p.Unit() && p.IndexAt(b, j) == i
  {
    b, j := i / p.Unit(), i % p.Unit();
  }

  lemma EarlierTrialAvailable(p: Plan, b: nat, j: nat)
    requires p.TrialAvailable(p.IndexAt(b, j))
    ensures p.TrialAvailable(p.IndexAt(b, 0))
  {
  }

  lemma BlockDrawn(p: Plan, b: nat, drawn: nat)
    requires p.Valid() && p.BlockAvailable(b) && !p.BlockAvailable(drawn)
    ensures b < drawn
  {
  }

  /** A bounded run that is neither stopped nor aborted emits every index below the
      bound exactly once, whatever the number of workers and their interleaving. */
  lemma CompleteRun(p: Plan, workers: nat, steps: seq<Step>)
    requires p.Valid() && Execute(p, workers, steps).Some? && p.bound > 0
    requires var s := Execute(p, workers, steps).value; AllFinished(s) && !s.stopped && |s.workers| > 0
    ensures var indices := Indices(Execute(p, workers, steps).value.emitted);
            |indices| == p.bound && IsPerm(indices)
  {
    RunInvariant(p, workers, steps);
    NoIndexTwice(p, workers, steps);
    var s := Execute(p, workers, steps).value;
    var indices := Indices(s.emitted);
    forall i
      ensures i in Elements(indices) <==> 0 <= i < p.bound
    {
      if 0 <= i < p.bound {
        IndexEmitted(p, s, i);
      }
    }
    assert Elements(indices) == Below(p.bound);
    DistinctSize(indices);
    BelowSize(p.bound);
  }

  /** The emitted trials of one cycle. */
  predicate CycleEmitted(emitted: seq<Trial>, cycle: nat, n: nat, at: seq<nat>) {
    |at| == n && forall shift :: 0 <= shift < n ==>
      at[shift] < |emitted| && emitted[at[shift]].cycle == cycle && emitted[at[shift]].shift == shift
  }

  /** Under rotation an index is cycle * n + shift, and over a complete cycle exactly
      one trial puts a given request in a given position. */
  lemma CycleIsBalanced(p: Plan, workers: nat, steps: seq<Step>, cycle: nat, at: seq<nat>, position: nat, request: nat)
    requires p.Valid() && Execute(p, workers, steps).Some? && p.policy.Rotate? && position < p.n && request < p.n
    requires CycleEmitted(Execute(p, workers, steps).value.emitted, cycle, p.n, at)
    ensures var emitted := Execute(p, workers, steps).value.emitted;
            && (forall k :: 0 <= k < |emitted| ==> emitted[k].index == emitted[k].cycle * p.n + emitted[k].shift &&
                                                   |emitted[k].arrangement| == p.n)
            && exists shift: nat ::
                 shift < p.n && emitted[at[shift]].arrangement[position] == request &&
                 forall k :: 0 <= k < |emitted| && emitted[k].cycle == cycle ==>
                   (emitted[k].arrangement[position] == request ==> emitted[k].shift == shift)
  {
    RunInvariant(p, workers, steps);
    var s := Execute(p, workers, steps).value;
    forall k | 0 <= k < |s.emitted|
      ensures TrialOk(p, s.bases, s.emitted[k])
    {
    }
    assert TrialOk(p, s.bases, s.emitted[at[0]]);
    var base := s.bases[cycle];
    LatinSquare(base, position, request);
    var shift: nat :| shift < p.n && Rotated(base, shift)[position] == request;
    assert s.emitted[at[shift]].arrangement == Rotated(base, shift);
  }
}
