/** The scheduler object itself: its pruning and selection loops and its step, refined
    to the transitions of the protocol. */
module PacingLoop {
  import opened Sequences
  import opened Pacing
  import opened PacingProofs

  const DAY := 24 * 3600 * SECOND

  /** When a batch of this width may start on a clock that has a previous release. */
  function ReadyAt(clock: Clock, width: int): int {
    var d := RequestInterval(width, clock.config.rate);
    var ready := clock.last + clock.config.interval;
    if d > 0 && ready < clock.last + d then clock.last + d else ready
  }

  lemma ReadyIsAfterReadyAt(clock: Clock, width: int, now: int)
    ensures clock.Ready(width, now) <==> !clock.started || ReadyAt(clock, width) <= now
  {
  }

  predicate AsPruned(calls: seq<Admission>, before: map<nat, Run>, runs: map<nat, Run>, r: nat) {
    if r in before && !Ended(r, PrunedRun(calls, before[r])) then r in runs && runs[r] == PrunedRun(calls, before[r])
    else r !in runs
  }

  predicate AsBefore(before: map<nat, Run>, runs: map<nat, Run>, r: nat) {
    if r in before then r in runs && runs[r] == before[r] else r !in runs
  }

  /** The table after the runs outside todo have been pruned. */
  ghost predicate PartlyPruned(calls: seq<Admission>, before: map<nat, Run>, todo: set<nat>, runs: map<nat, Run>) {
    forall r: nat :: if r in todo then r in before && AsBefore(before, runs, r) else AsPruned(calls, before, runs, r)
  }

  /** A cancelled selection disappears with the head of its run. */
  predicate SelectionPruned(calls: seq<Admission>, before: Option<(nat, nat)>, todo: set<nat>,
                            now: Option<(nat, nat)>) {
    if before.Some? && Gone(calls, before.value.0) then now.None? || (now == before && before.value.1 in todo)
    else now == before
  }

  /** The later of two ready times; None if neither clock has a previous release. */
  function LaterReady(a: Clock, b: Clock, width: int): Option<int> {
    if !a.started && !b.started then None
    else if !a.started then Some(ReadyAt(b, width))
    else if !b.started || ReadyAt(b, width) <= ReadyAt(a, width) then Some(ReadyAt(a, width))
    else Some(ReadyAt(b, width))
  }

  lemma LaterReadyIsBoth(a: Clock, b: Clock, width: int)
    ensures var ready := LaterReady(a, b, width);
            forall t :: (ready.Some? ==> ready.value <= t) <==> a.Ready(width, t) && b.Ready(width, t)
  {
    forall t
      ensures a.Ready(width, t) <==> !a.started || ReadyAt(a, width) <= t
      ensures b.Ready(width, t) <==> !b.started || ReadyAt(b, width) <= t
    {
      ReadyIsAfterReadyAt(a, width, t);
      ReadyIsAfterReadyAt(b, width, t);
    }
  }

  predicate BothReady(origin: Clock, runs: map<nat, Run>, calls: seq<Admission>, selected: (nat, nat), t: int)
    requires selected.1 in runs && selected.0 < |calls|
  {
    origin.Ready(calls[selected.0].width, t) && runs[selected.1].clock.Ready(calls[selected.0].width, t)
  }

  /** The table with a new entry for run r, which is removed if it has ended. */
  function Replaced(runs: map<nat, Run>, r: nat, run: Run): map<nat, Run> {
    if Ended(r, run) then runs - {r} else runs[r := run]
  }

  function WithPruned(calls: seq<Admission>, runs: map<nat, Run>, r: nat): map<nat, Run>
    requires r in runs
  {
    Replaced(runs, r, PrunedRun(calls, runs[r]))
  }

  predicate HeadGone(calls: seq<Admission>, queue: seq<nat>, selected: Option<(nat, nat)>) {
    selected.Some? && queue != [] && queue[0] == selected.value.0 && Gone(calls, queue[0])
  }

  /** The effect on the selection of pruning one queue. */
  predicate Unselected(calls: seq<Admission>, queue: seq<nat>, chosen: Option<(nat, nat)>,
                       selected: Option<(nat, nat)>) {
    && (selected == chosen || (selected.None? && chosen.Some? && Gone(calls, chosen.value.0)))
    && (HeadGone(calls, queue, chosen) ==> selected.None?)
  }

  lemma UnselectOne(calls: seq<Admission>, before: map<nat, Run>, todo: set<nat>, chosen: Option<(nat, nat)>, r: nat,
                    selected: Option<(nat, nat)>)
    requires SelectionPruned(calls, chosen, todo, selected) && SelectedOk(before, chosen) && r in todo && r in before
    ensures forall now :: Unselected(calls, before[r].queue, selected, now) ==>
              SelectionPruned(calls, chosen, todo - {r}, now)
  {
  }

  lemma PrunedOne(calls: seq<Admission>, before: map<nat, Run>, todo: set<nat>, runs: map<nat, Run>, r: nat)
    requires PartlyPruned(calls, before, todo, runs) && r in todo
    ensures r in before && r in runs && runs[r] == before[r]
    ensures PartlyPruned(calls, before, todo - {r}, WithPruned(calls, runs, r))
  {
    var after := WithPruned(calls, runs, r);
    assert AsBefore(before, runs, r);
    forall q: nat
      ensures if q in todo - {r} then q in before && AsBefore(before, after, q) else AsPruned(calls, before, after, q)
    {
      if q != r {
        assert q in after <==> q in runs;
      }
    }
  }

  lemma NonePruned(calls: seq<Admission>, before: map<nat, Run>)
    ensures PartlyPruned(calls, before, before.Keys, before)
  {
  }

  lemma NoHeads(s: State, grants: seq<Grant>, created: nat, earliest: Option<int>)
    requires RunsOk(s.calls, grants, created, s.runs) && IsChoice(s, None) && EarliestSoFar(s, {}, earliest)
    ensures earliest.None? <==> Drained(s.runs)
  {
    if earliest.None? {
      forall r | r in s.runs
        ensures s.runs[r].queue == []
      {
        if s.runs[r].queue != [] {
          HeadIsACall(s.calls, grants, created, s.runs, r);
        }
      }
    }
  }

  lemma DecisionIgnoresSelection(s: State, selected: Option<(nat, nat)>, late: bool)
    requires selected.Some? && SelectedOk(s.runs, selected) && selected.value.0 < |s.calls|
    ensures Decided(s.(selected := selected), selected.value.0, selected.value.1, late)
         == Decided(s, selected.value.0, selected.value.1, late)
  {
  }

  lemma PrunedAt(calls: seq<Admission>, before: map<nat, Run>, runs: map<nat, Run>, r: nat)
    requires AsPruned(calls, before, runs, r)
    ensures r in runs <==> r in PrunedRuns(calls, before)
    ensures r in runs ==> runs[r] == PrunedRuns(calls, before)[r]
  {
  }

  lemma AllPruned(calls: seq<Admission>, before: map<nat, Run>, runs: map<nat, Run>)
    requires PartlyPruned(calls, before, {}, runs)
    ensures runs == PrunedRuns(calls, before)
  {
    var pruned := PrunedRuns(calls, before);
    forall r: nat
      ensures SameAt(runs, pruned, r)
    {
      PrunedAt(calls, before, runs, r);
    }
    SameEverywhere(runs, pruned);
  }

  predicate SameAt(x: map<nat, Run>, y: map<nat, Run>, r: nat) {
    if r in x then r in y && x[r] == y[r] else r !in y
  }

  lemma SameEverywhere(x: map<nat, Run>, y: map<nat, Run>)
    requires forall r: nat :: SameAt(x, y, r)
    ensures x == y
  {
    forall r: nat
      ensures r in x <==> r in y
      ensures r in x ==> x[r] == y[r]
    {
      assert SameAt(x, y, r);
    }
  }

  /** What the run heads outside todo say about the best choice so far. */
  ghost predicate BestSoFar(s: State, todo: set<nat>, choice: Option<(nat, nat)>) {
    && (choice.Some? ==> HeadReady(s, choice.value.1) && choice.value.0 == s.runs[choice.value.1].queue[0])
    && (forall r :: HeadReady(s, r) && r !in todo ==> choice.Some? && choice.value.0 <= s.runs[r].queue[0])
  }

  /** Run r has a head that must wait on the run's own clock. */
  predicate HeadWaits(s: State, r: nat) {
    r in s.runs && s.runs[r].queue != [] && s.runs[r].queue[0] < |s.calls| && !HeadReady(s, r)
  }

  /** Some waiting head outside todo becomes ready at earliest, and none before. */
  ghost predicate EarliestSoFar(s: State, todo: set<nat>, earliest: Option<int>) {
    && (earliest.Some? ==>
         earliest.value > s.now && exists r :: HeadWaits(s, r) && HeadReady(s.(now := earliest.value), r))
    && (forall r :: HeadWaits(s, r) && r !in todo ==>
          earliest.Some? && earliest.value <= ReadyAt(s.runs[r].clock, s.calls[s.runs[r].queue[0]].width))
  }

  lemma HeadIsACall(calls: seq<Admission>, grants: seq<Grant>, created: nat, runs: map<nat, Run>, r: nat)
    requires RunsOk(calls, grants, created, runs) && r in runs && runs[r].queue != []
    ensures runs[r].queue[0] < |calls|
  {
    assert RunOk(calls, grants, r, runs[r]);
  }

  lemma ConsiderEmpty(s: State, todo: set<nat>, r: nat, choice: Option<(nat, nat)>, earliest: Option<int>)
    requires !(r in s.runs && s.runs[r].queue != [])
    requires BestSoFar(s, todo, choice) && EarliestSoFar(s, todo, earliest)
    ensures BestSoFar(s, todo - {r}, choice) && EarliestSoFar(s, todo - {r}, earliest)
  {
  }

  lemma ConsiderReady(s: State, todo: set<nat>, r: nat, choice: Option<(nat, nat)>, earliest: Option<int>)
    requires HeadReady(s, r)
    requires BestSoFar(s, todo, choice) && EarliestSoFar(s, todo, earliest)
    ensures var id := s.runs[r].queue[0];
            BestSoFar(s, todo - {r}, if choice.None? || id < choice.value.0 then Some((id, r)) else choice)
    ensures EarliestSoFar(s, todo - {r}, earliest)
  {
  }

  lemma ConsiderWaiting(s: State, todo: set<nat>, r: nat, ready: int, choice: Option<(nat, nat)>, earliest: Option<int>)
    requires HeadWaits(s, r) && ready == ReadyAt(s.runs[r].clock, s.calls[s.runs[r].queue[0]].width)
    requires BestSoFar(s, todo, choice) && EarliestSoFar(s, todo, earliest)
    ensures BestSoFar(s, todo - {r}, choice)
    ensures EarliestSoFar(s, todo - {r}, if earliest.None? || ready < earliest.value then Some(ready) else earliest)
  {
    var width := s.calls[s.runs[r].queue[0]].width;
    ReadyIsAfterReadyAt(s.runs[r].clock, width, ready);
    ReadyIsAfterReadyAt(s.runs[r].clock, width, s.now);
    assert HeadReady(s.(now := ready), r);
  }

  lemma ChoiceComplete(s: State, choice: Option<(nat, nat)>)
    requires BestSoFar(s, {}, choice)
    ensures IsChoice(s, choice)
  {
  }

  /** Drops the cancelled entries at the head of one queue, and with them a cancelled
      selection. */
  method PruneQueue(calls: seq<Admission>, before: seq<nat>, chosen: Option<(nat, nat)>)
    returns (queue: seq<nat>, selected: Option<(nat, nat)>)
    ensures queue == Live(calls, before)
    ensures Unselected(calls, before, chosen, selected)
  {
    queue, selected := before, chosen;
    while queue != [] && Gone(calls, queue[0])
      invariant Live(calls, queue) == Live(calls, before)
      invariant selected == chosen || (selected.None? && chosen.Some? && Gone(calls, chosen.value.0))
      invariant HeadGone(calls, before, chosen) ==> queue == before || selected.None?
      decreases |queue|
    {
      if selected.Some? && queue[0] == selected.value.0 {
        selected := None;
      }
      queue := queue[1..];
    }
  }

  method PruneRun(calls: seq<Admission>, before: Run, chosen: Option<(nat, nat)>)
    returns (run: Run, selected: Option<(nat, nat)>)
    ensures run == PrunedRun(calls, before)
    ensures Unselected(calls, before.queue, chosen, selected)
  {
    var queue;
    queue, selected := PruneQueue(calls, before.queue, chosen);
    run := before.(queue := queue);
  }

  method PruneEntry(calls: seq<Admission>, before: map<nat, Run>, chosen: Option<(nat, nat)>, r: nat)
    returns (runs: map<nat, Run>, selected: Option<(nat, nat)>)
    requires r in before
    ensures runs == WithPruned(calls, before, r)
    ensures Unselected(calls, before[r].queue, chosen, selected)
  {
    var run;
    run, selected := PruneRun(calls, before[r], chosen);
    runs := Replaced(before, r, run);
  }

  method PruneAll(calls: seq<Admission>, before: map<nat, Run>, chosen: Option<(nat, nat)>)
    returns (runs: map<nat, Run>, selected: Option<(nat, nat)>)
    requires SelectedOk(before, chosen)
    ensures runs == PrunedRuns(calls, before)
    ensures selected == if chosen.Some? && Gone(calls, chosen.value.0) then None else chosen
  {
    var todo := before.Keys;
    runs, selected := before, chosen;
    NonePruned(calls, before);
    while todo != {}
      invariant PartlyPruned(calls, before, todo, runs) && SelectionPruned(calls, chosen, todo, selected)
      decreases |todo|
    {
      var r :| r in todo;
      PrunedOne(calls, before, todo, runs, r);
      UnselectOne(calls, before, todo, chosen, r, selected);
      runs, selected := PruneEntry(calls, runs, selected, r);
      todo := todo - {r};
    }
    AllPruned(calls, before, runs);
  }

  class Scheduler {
    var origin: Clock
    var runs: map<nat, Run>
    var running: bool
    var selected: Option<(nat, nat)>
    var calls: seq<Admission>
    ghost var created: nat
    ghost var grants: seq<Grant>

    ghost function Value(now: int): State
      reads this
    {
      State(now, origin, runs, created, running, selected, calls, grants)
    }

    method PruneCancelled(ghost now: int)
      requires SelectedOk(runs, selected)
      modifies this`runs, this`selected
      ensures Value(now) == Pruned(old(Value(now)))
    {
      runs, selected := PruneAll(calls, runs, selected);
    }

    /** Selects the ready head that arrived first; earliest is when the first of the
        waiting heads becomes ready. */
    method SelectAdmission(now: int) returns (earliest: Option<int>)
      requires selected.None? && RunsOk(calls, grants, created, runs)
      modifies this`selected
      ensures IsChoice(old(Value(now)), selected)
      ensures EarliestSoFar(old(Value(now)), {}, earliest)
    {
      earliest := None;
      var todo := runs.Keys;
      while todo != {}
        invariant BestSoFar(old(Value(now)), todo, selected) && EarliestSoFar(old(Value(now)), todo, earliest)
        decreases |todo|
      {
        var r :| r in todo;
        if r in runs && runs[r].queue != [] {
          HeadIsACall(calls, grants, created, runs, r);
          var id, clock := runs[r].queue[0], runs[r].clock;
          ReadyIsAfterReadyAt(clock, calls[id].width, now);
          if clock.started && ReadyAt(clock, calls[id].width) > now {
            var ready := ReadyAt(clock, calls[id].width);
            ConsiderWaiting(old(Value(now)), todo, r, ready, selected, earliest);
            if earliest.None? || ready < earliest.value {
              earliest := Some(ready);
            }
          } else {
            ConsiderReady(old(Value(now)), todo, r, selected, earliest);
            if selected.None? || id < selected.value.0 {
              selected := Some((id, r));
            }
          }
        } else {
          ConsiderEmpty(old(Value(now)), todo, r, selected, earliest);
        }
        todo := todo - {r};
      }
      ChoiceComplete(old(Value(now)), selected);
    }

    method RemoveSelected()
      requires selected.Some? && SelectedOk(runs, selected)
      modifies this`runs, this`selected
      ensures runs == WithoutHead(old(runs), old(selected).value.1) && selected.None?
    {
      var r := selected.value.1;
      var run := runs[r].(queue := runs[r].queue[1..]);
      runs := if Ended(r, run) then runs - {r} else runs[r := run];
      selected := None;
    }

    method GrantSelected(now: int) returns (idle: bool)
      requires selected.Some? && SelectedOk(runs, selected) && selected.value.0 < |calls| && running
      modifies this
      ensures Value(now) == Granted(old(Value(now)), old(selected).value.0, old(selected).value.1)
      ensures idle == !running
    {
      var (id, r) := selected.value;
      var run := runs[r];
      grants := grants + [Grant(id, r, run.clock.config, calls[id].width, now)];
      origin := Clock(origin.config, now, true);
      if run.clock.config.Active() {
        runs := runs[r := run.(clock := Clock(run.clock.config, now, true))];
      } else {
        assert runs[r := run] == runs;
      }
      RemoveSelected();
      idle := |runs| == 1 && Drained(runs);
      running := !idle;
      calls := calls[id := calls[id].(granted := true)];
    }

    /** Drops the selection if its context has ended, grants it if both clocks allow, and
        otherwise keeps it; wait is then the time until both clocks allow it. */
    method DecideSelected(now: int, late: bool) returns (wait: int, idle: bool)
      requires selected.Some? && SelectedOk(runs, selected) && selected.value.0 < |calls| && running
      modifies this
      ensures Value(now) == Decided(old(Value(now)), old(selected).value.0, old(selected).value.1, late)
      ensures idle == !running && wait >= 0 && (wait == 0 <==> selected.None?)
      ensures wait > 0 ==> forall t :: t >= now + wait <==>
              BothReady(old(origin), old(runs), old(calls), old(selected).value, t)
    {
      var (id, r) := selected.value;
      wait, idle := 0, false;
      if late {
        RemoveSelected();
        calls := calls[id := calls[id].(done := true)];
      } else {
        var ready := LaterReady(origin, runs[r].clock, calls[id].width);
        LaterReadyIsBoth(origin, runs[r].clock, calls[id].width);
        if ready.Some? && ready.value > now {
          wait := ready.value - now;
        } else {
          idle := GrantSelected(now);
        }
      }
    }

    /** Nothing may start yet: sleeps until the first waiting head may start on its run's
        clock, a day if nothing is queued, or for good if no run is left. */
    method Rest(now: int, earliest: Option<int>) returns (wait: int, idle: bool)
      requires selected.None? && running && IsChoice(Value(now), None) && EarliestSoFar(Value(now), {}, earliest)
      requires RunsOk(calls, grants, created, runs)
      modifies this`running
      ensures Value(now) == Scheduled(old(Value(now)), None, false)
      ensures idle == !running && (wait == 0 <==> idle) && wait >= 0
      ensures earliest.Some? ==> wait == earliest.value - now
    {
      NoHeads(Value(now), grants, created, earliest);
      if earliest.Some? {
        wait, idle := earliest.value - now, false;
      } else if |runs| == 1 {
        running := false;
        wait, idle := 0, true;
      } else {
        wait, idle := DAY, false;
      }
    }

    /** The part of a pass after pruning. */
    method Choose(now: int, late: bool) returns (wait: int, idle: bool, ghost choice: Option<(nat, nat)>)
      requires running && RunsOk(calls, grants, created, runs) && SelectedOk(runs, selected)
      modifies this
      ensures if old(selected).Some? then choice.None? else IsChoice(old(Value(now)), choice)
      ensures Value(now) == Scheduled(old(Value(now)), choice, late)
      ensures idle == !running && wait >= 0
    {
      ghost var pruned := Value(now);
      choice := None;
      var earliest := None;
      if selected.None? {
        earliest := SelectAdmission(now);
        choice := selected;
      }
      if selected.None? {
        wait, idle := Rest(now, earliest);
      } else {
        HeadIsACall(calls, grants, created, runs, selected.value.1);
        DecisionIgnoresSelection(pruned, selected, late);
        wait, idle := DecideSelected(now, late);
      }
    }

    /** One pass of the loop takes the protocol's scheduling step, with the choice that
        its selection made. */
    method Step(now: int, late: bool) returns (wait: int, idle: bool, ghost choice: Option<(nat, nat)>)
      requires running && Inv(Value(now))
      modifies this
      ensures Enabled(old(Value(now)), Schedule(choice, late))
      ensures Value(now) == Next(old(Value(now)), Schedule(choice, late))
      ensures idle == !running && wait >= 0
    {
      PruneKeeps(Value(now));
      PruneCancelled(now);
      wait, idle, choice := Choose(now, late);
    }
  }
}
