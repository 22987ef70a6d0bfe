/** What every run of the pacing scheduler keeps: queues, selection, returns, history
    and spacing. */
module PacingProofs {
  import opened Sequences
  import opened Pacing

  // ------------------------------------------------------------------ invariant

  /** Queued calls of run r, oldest first, none of them granted. */
  predicate QueueOk(calls: seq<Admission>, r: nat, queue: seq<nat>) {
    && (forall i :: 0 <= i < |queue| ==> queue[i] < |calls| && calls[queue[i]].run == r && !calls[queue[i]].granted)
    && (forall i, j :: 0 <= i < j < |queue| ==> queue[i] < queue[j])
  }

  /** Everything granted in run r arrived before everything still queued there. */
  predicate GrantedFirst(grants: seq<Grant>, r: nat, queue: seq<nat>) {
    forall k, i :: 0 <= k < |grants| && grants[k].run == r && 0 <= i < |queue| ==> grants[k].id < queue[i]
  }

  predicate Stamped(grants: seq<Grant>, time: int) { exists k :: 0 <= k < |grants| && grants[k].time == time }

  lemma StampedGrows(grants: seq<Grant>, g: Grant, time: int)
    requires Stamped(grants, time) || g.time == time
    ensures Stamped(grants + [g], time)
  {
    if Stamped(grants, time) {
      var k :| 0 <= k < |grants| && grants[k].time == time;
      assert (grants + [g])[k].time == time;
    } else {
      assert (grants + [g])[|grants|].time == time;
    }
  }

  /** A run's clock shows its latest grant if its configuration constrains it. */
  predicate ClockOk(grants: seq<Grant>, r: nat, clock: Clock) {
    && (forall k :: 0 <= k < |grants| && grants[k].run == r ==> grants[k].config == clock.config)
    && (clock.started ==> Stamped(grants, clock.last))
    && (clock.config.Active() ==>
          forall k :: 0 <= k < |grants| && grants[k].run == r ==> clock.started && grants[k].time <= clock.last)
  }

  predicate RunOk(calls: seq<Admission>, grants: seq<Grant>, r: nat, run: Run) {
    QueueOk(calls, r, run.queue) && GrantedFirst(grants, r, run.queue) && ClockOk(grants, r, run.clock)
  }

  predicate RunsOk(calls: seq<Admission>, grants: seq<Grant>, created: nat, runs: map<nat, Run>) {
    0 in runs && forall r :: r in runs ==> r < created && RunOk(calls, grants, r, runs[r])
  }

  predicate SelectedOk(runs: map<nat, Run>, selected: Option<(nat, nat)>) {
    selected.Some? ==>
      selected.value.1 in runs && runs[selected.value.1].queue != [] &&
      runs[selected.value.1].queue[0] == selected.value.0
  }

  predicate CallOk(c: Admission) {
    && (c.returned == Some(true) ==> c.granted)
    && (c.cancelled <==> c.returned == Some(false))
    && (c.cancelled ==> c.done && !c.granted)
  }

  predicate CallsOk(calls: seq<Admission>) { forall id :: 0 <= id < |calls| ==> CallOk(calls[id]) }

  predicate GrantOk(calls: seq<Admission>, created: nat, g: Grant) {
    && g.id < |calls| && calls[g.id].granted && g.run < created
    && g.run == calls[g.id].run && g.width == calls[g.id].width
  }

  predicate GrantsOk(calls: seq<Admission>, created: nat, grants: seq<Grant>) {
    && (forall k :: 0 <= k < |grants| ==> GrantOk(calls, created, grants[k]))
    && (forall i, j :: 0 <= i < j < |grants| ==> grants[i].id != grants[j].id)
    && (forall i, j :: 0 <= i < j < |grants| && grants[i].run == grants[j].run ==>
          grants[i].id < grants[j].id && grants[i].config == grants[j].config)
  }

  predicate Recorded(grants: seq<Grant>, id: nat) { exists k :: 0 <= k < |grants| && grants[k].id == id }

  predicate AllRecorded(calls: seq<Admission>, grants: seq<Grant>) {
    forall id :: 0 <= id < |calls| && calls[id].granted ==> Recorded(grants, id)
  }

  /** b starts no earlier after a than the configuration allows. */
  predicate Spaced(c: Config, a: Grant, b: Grant) {
    && a.time <= b.time
    && a.time + c.interval <= b.time
    && a.time + RequestInterval(b.width, c.rate) <= b.time
  }

  predicate SpacingOk(config: Config, grants: seq<Grant>) {
    forall i, j :: 0 <= i < j < |grants| ==>
      && Spaced(config, grants[i], grants[j])
      && (grants[i].run == grants[j].run ==> Spaced(grants[j].config, grants[i], grants[j]))
  }

  /** The origin clock shows the latest grant. */
  predicate OriginOk(origin: Clock, grants: seq<Grant>, now: int) {
    && (origin.started ==> origin.last <= now)
    && (grants != [] ==> origin.started)
    && forall k :: 0 <= k < |grants| ==> grants[k].time <= origin.last
  }

  predicate Inv(s: State) {
    && RunsOk(s.calls, s.grants, s.created, s.runs) && SelectedOk(s.runs, s.selected)
    && CallsOk(s.calls) && GrantsOk(s.calls, s.created, s.grants) && AllRecorded(s.calls, s.grants)
    && SpacingOk(s.origin.config, s.grants) && OriginOk(s.origin, s.grants, s.now)
    && (!s.running ==> Drained(s.runs))
  }

  // ------------------------------------------------------------- client steps

  lemma NewRunOk(calls: seq<Admission>, grants: seq<Grant>, created: nat, runs: map<nat, Run>, config: Config)
    requires RunsOk(calls, grants, created, runs) && GrantsOk(calls, created, grants)
    ensures RunsOk(calls, grants, created + 1, runs[created := Run(Clock(config, 0, false), [], false)])
    ensures GrantsOk(calls, created + 1, grants)
  {
    forall k | 0 <= k < |grants|
      ensures grants[k].run != created && GrantOk(calls, created + 1, grants[k])
    {
      assert GrantOk(calls, created, grants[k]);
    }
  }

  lemma QueueGrows(calls: seq<Admission>, r: nat, queue: seq<nat>, c: Admission)
    requires QueueOk(calls, r, queue)
    ensures QueueOk(calls + [c], r, queue)
    ensures c.run == r && !c.granted ==> QueueOk(calls + [c], r, queue + [|calls|])
  {
  }

  lemma EnqueueOk(calls: seq<Admission>, grants: seq<Grant>, created: nat, runs: map<nat, Run>, r: nat, c: Admission)
    requires RunsOk(calls, grants, created, runs) && GrantsOk(calls, created, grants)
    requires r in runs && c.run == r && !c.granted
    ensures RunsOk(calls + [c], grants, created, runs[r := runs[r].(queue := runs[r].queue + [|calls|])])
    ensures GrantsOk(calls + [c], created, grants)
  {
    forall k | 0 <= k < |grants|
      ensures GrantOk(calls + [c], created, grants[k]) && grants[k].id < |calls|
    {
      assert GrantOk(calls, created, grants[k]);
    }
    var after := runs[r := runs[r].(queue := runs[r].queue + [|calls|])];
    forall q | q in after
      ensures q < created && RunOk(calls + [c], grants, q, after[q])
    {
      assert RunOk(calls, grants, q, runs[q]);
      QueueGrows(calls, q, runs[q].queue, c);
    }
  }

  lemma RecordedGrows(calls: seq<Admission>, grants: seq<Grant>, c: Admission)
    requires AllRecorded(calls, grants) && !c.granted
    ensures AllRecorded(calls + [c], grants)
  {
    forall id | 0 <= id < |calls + [c]| && (calls + [c])[id].granted
      ensures Recorded(grants, id)
    {
      assert calls[id].granted;
    }
  }

  /** Changing flags of a call that say nothing about its place or its grant. */
  lemma FlagsKeepRuns(calls: seq<Admission>, id: nat, c: Admission, grants: seq<Grant>, created: nat,
                      runs: map<nat, Run>)
    requires id < |calls| && c.run == calls[id].run && c.width == calls[id].width && c.granted == calls[id].granted
    requires RunsOk(calls, grants, created, runs) && GrantsOk(calls, created, grants)
    ensures RunsOk(calls[id := c], grants, created, runs) && GrantsOk(calls[id := c], created, grants)
  {
    forall r | r in runs
      ensures RunOk(calls[id := c], grants, r, runs[r])
    {
      assert RunOk(calls, grants, r, runs[r]);
    }
    forall k | 0 <= k < |grants|
      ensures GrantOk(calls[id := c], created, grants[k])
    {
      assert GrantOk(calls, created, grants[k]);
    }
  }

  lemma CloseRunOk(calls: seq<Admission>, grants: seq<Grant>, created: nat, runs: map<nat, Run>, r: nat)
    requires RunsOk(calls, grants, created, runs) && r in runs && r != 0
    ensures RunsOk(calls, grants, created, runs - {r})
    ensures RunsOk(calls, grants, created, runs[r := runs[r].(closed := true)])
  {
    assert RunOk(calls, grants, r, runs[r].(closed := true));
  }

  lemma NewRunKeeps(s: State, config: Config)
    requires Inv(s)
    ensures Inv(Next(s, NewRun(config)))
  {
    NewRunOk(s.calls, s.grants, s.created, s.runs, config);
  }

  lemma EnqueueKeeps(s: State, r: nat, width: int)
    requires Inv(s) && Enabled(s, Enqueue(r, width))
    ensures Inv(Next(s, Enqueue(r, width)))
  {
    var c := Admission(r, width, false, false, false, None);
    EnqueueOk(s.calls, s.grants, s.created, s.runs, r, c);
    RecordedGrows(s.calls, s.grants, c);
  }

  lemma FlagsKeep(s: State, id: nat, c: Admission)
    requires Inv(s) && id < |s.calls| && CallOk(c)
    requires c.run == s.calls[id].run && c.width == s.calls[id].width && c.granted == s.calls[id].granted
    ensures Inv(s.(calls := s.calls[id := c]))
  {
    FlagsKeepRuns(s.calls, id, c, s.grants, s.created, s.runs);
  }

  lemma CloseRunKeeps(s: State, r: nat)
    requires Inv(s) && Enabled(s, CloseRun(r))
    ensures Inv(Next(s, CloseRun(r)))
  {
    CloseRunOk(s.calls, s.grants, s.created, s.runs, r);
  }

  lemma TickKeeps(s: State, now: int)
    requires Inv(s) && now >= s.now
    ensures Inv(s.(now := now))
  {
    var t := s.(now := now);
    assert t.runs == s.runs && t.calls == s.calls && t.grants == s.grants && t.created == s.created;
    assert RunsOk(t.calls, t.grants, t.created, t.runs);
  }

  lemma ClientStepKeeps(s: State, step: Step)
    requires Inv(s) && Enabled(s, step) && !step.Schedule?
    ensures Inv(Next(s, step))
  {
    match step
    case Tick(now) => TickKeeps(s, now);
    case NewRun(config) => NewRunKeeps(s, config);
    case Enqueue(r, width) => EnqueueKeeps(s, r, width);
    case ContextEnds(id) => FlagsKeep(s, id, s.calls[id].(done := true));
    case WaitReturns(id) =>
      var c := s.calls[id];
      FlagsKeep(s, id, c.(cancelled := !c.granted, returned := Some(c.granted)));
    case CloseRun(r) => CloseRunKeeps(s, r);
  }

  // ------------------------------------------------------------- scheduler steps

  lemma SuffixOk(calls: seq<Admission>, grants: seq<Grant>, r: nat, run: Run, k: nat)
    requires RunOk(calls, grants, r, run) && k <= |run.queue|
    ensures RunOk(calls, grants, r, run.(queue := run.queue[k..]))
  {
    var rest := run.queue[k..];
    assert forall i :: 0 <= i < |rest| ==> rest[i] == run.queue[k + i];
  }

  lemma PruneRunsOk(calls: seq<Admission>, grants: seq<Grant>, created: nat, runs: map<nat, Run>)
    requires RunsOk(calls, grants, created, runs)
    ensures RunsOk(calls, grants, created, PrunedRuns(calls, runs))
  {
    var pruned := PrunedRuns(calls, runs);
    forall r | r in pruned
      ensures r < created && RunOk(calls, grants, r, pruned[r])
    {
      PruneRunOk(calls, grants, r, runs[r]);
    }
  }

  lemma PruneRunOk(calls: seq<Admission>, grants: seq<Grant>, r: nat, run: Run)
    requires RunOk(calls, grants, r, run)
    ensures RunOk(calls, grants, r, PrunedRun(calls, run))
  {
    SuffixOk(calls, grants, r, run, |run.queue| - |Live(calls, run.queue)|);
  }

  lemma PruneSelectedOk(calls: seq<Admission>, runs: map<nat, Run>, selected: Option<(nat, nat)>)
    requires SelectedOk(runs, selected) && selected.Some? && !Gone(calls, selected.value.0)
    ensures SelectedOk(PrunedRuns(calls, runs), selected)
  {
    var (id, r) := selected.value;
    assert Live(calls, runs[r].queue) == runs[r].queue;
  }

  lemma PruneKeeps(s: State)
    requires Inv(s) && s.running
    ensures Inv(Pruned(s))
  {
    PruneRunsOk(s.calls, s.grants, s.created, s.runs);
    if s.selected.Some? && !Gone(s.calls, s.selected.value.0) {
      PruneSelectedOk(s.calls, s.runs, s.selected);
    }
  }

  lemma PrunedHeadsStay(s: State, r: nat)
    requires r in Pruned(s).runs && Pruned(s).runs[r].queue != []
    ensures !Gone(s.calls, Pruned(s).runs[r].queue[0])
  {
  }

  lemma WithoutHeadOk(calls: seq<Admission>, grants: seq<Grant>, created: nat, runs: map<nat, Run>, r: nat)
    requires RunsOk(calls, grants, created, runs) && r in runs && runs[r].queue != []
    ensures RunsOk(calls, grants, created, WithoutHead(runs, r))
  {
    SuffixOk(calls, grants, r, runs[r], 1);
  }

  lemma DropKeeps(s: State, id: nat, r: nat)
    requires Inv(s) && s.running && r in s.runs && s.runs[r].queue != [] && s.runs[r].queue[0] == id && id < |s.calls|
    ensures Inv(s.(runs := WithoutHead(s.runs, r), selected := None,
            calls := s.calls[id := s.calls[id].(done := true)]))
  {
    WithoutHeadOk(s.calls, s.grants, s.created, s.runs, r);
    FlagsKeep(s.(runs := WithoutHead(s.runs, r), selected := None), id, s.calls[id].(done := true));
  }

  /** The grant of head id of run r at time now. */
  predicate NextGrant(calls: seq<Admission>, r: nat, run: Run, id: nat, g: Grant, now: int) {
    && run.queue != [] && run.queue[0] == id && id < |calls|
    && g == Grant(id, r, run.clock.config, calls[id].width, now)
  }

  lemma GrantOtherRun(calls: seq<Admission>, grants: seq<Grant>, r: nat, id: nat, g: Grant, q: nat, run: Run)
    requires RunOk(calls, grants, q, run) && q != r && g.run == r && id < |calls| && calls[id].run == r
    ensures RunOk(calls[id := calls[id].(granted := true)], grants + [g], q, run)
  {
    forall i | 0 <= i < |run.queue|
      ensures run.queue[i] != id
    {
      assert calls[run.queue[i]].run == q;
    }
    if run.clock.started {
      StampedGrows(grants, g, run.clock.last);
    }
  }

  lemma GrantOwnRun(calls: seq<Admission>, grants: seq<Grant>, origin: Clock, r: nat, run: Run, id: nat, g: Grant,
                    now: int)
    requires RunOk(calls, grants, r, run) && NextGrant(calls, r, run, id, g, now) && OriginOk(origin, grants, now)
    ensures var clock := if run.clock.config.Active() then Clock(run.clock.config, now, true) else run.clock;
            RunOk(calls[id := calls[id].(granted := true)], grants + [g], r, Run(clock, run.queue[1..], run.closed))
  {
    var rest := run.queue[1..];
    assert forall i :: 0 <= i < |rest| ==> rest[i] == run.queue[i + 1];
    StampedGrows(grants, g, if run.clock.config.Active() || !run.clock.started then now else run.clock.last);
  }

  lemma GrantHistory(calls: seq<Admission>, grants: seq<Grant>, created: nat, r: nat, run: Run, id: nat, g: Grant,
                     now: int)
    requires RunOk(calls, grants, r, run) && NextGrant(calls, r, run, id, g, now)
    requires GrantsOk(calls, created, grants) && r < created
    ensures GrantsOk(calls[id := calls[id].(granted := true)], created, grants + [g])
  {
    forall k | 0 <= k < |grants|
      ensures grants[k].id != id && GrantOk(calls[id := calls[id].(granted := true)], created, grants[k])
    {
      assert GrantOk(calls, created, grants[k]);
    }
  }

  lemma GrantRecorded(calls: seq<Admission>, grants: seq<Grant>, id: nat, g: Grant)
    requires AllRecorded(calls, grants) && id < |calls| && g.id == id
    ensures AllRecorded(calls[id := calls[id].(granted := true)], grants + [g])
  {
    var after := calls[id := calls[id].(granted := true)];
    assert (grants + [g])[|grants|].id == id;
    forall x | 0 <= x < |after| && after[x].granted
      ensures Recorded(grants + [g], x)
    {
      if x != id {
        assert Recorded(grants, x);
        var k :| 0 <= k < |grants| && grants[k].id == x;
        assert (grants + [g])[k].id == x;
      }
    }
  }

  lemma ReadyIsSpaced(clock: Clock, a: Grant, b: Grant)
    requires clock.started && a.time <= clock.last <= b.time && clock.Ready(b.width, b.time)
    ensures Spaced(clock.config, a, b)
  {
  }

  lemma IdleConfigIsSpaced(config: Config, a: Grant, b: Grant)
    requires !config.Active() && a.time <= b.time
    ensures Spaced(config, a, b)
  {
  }

  lemma GrantSpacing(calls: seq<Admission>, grants: seq<Grant>, origin: Clock, r: nat, run: Run, id: nat, g: Grant,
                     now: int)
    requires RunOk(calls, grants, r, run) && NextGrant(calls, r, run, id, g, now)
    requires OriginOk(origin, grants, now) && SpacingOk(origin.config, grants)
    requires origin.Ready(g.width, now) && run.clock.Ready(g.width, now)
    ensures SpacingOk(origin.config, grants + [g])
  {
    if run.clock.started {
      var k :| 0 <= k < |grants| && grants[k].time == run.clock.last;
    }
    forall i | 0 <= i < |grants|
      ensures Spaced(origin.config, grants[i], g)
      ensures grants[i].run == r ==> Spaced(g.config, grants[i], g)
    {
      ReadyIsSpaced(origin, grants[i], g);
      if grants[i].run == r {
        if run.clock.config.Active() {
          ReadyIsSpaced(run.clock, grants[i], g);
        } else {
          IdleConfigIsSpaced(run.clock.config, grants[i], g);
        }
      }
    }
  }

  lemma GrantRunsOk(calls: seq<Admission>, grants: seq<Grant>, created: nat, runs: map<nat, Run>, origin: Clock,
                    r: nat, id: nat, g: Grant, now: int)
    requires RunsOk(calls, grants, created, runs) && r in runs
    requires NextGrant(calls, r, runs[r], id, g, now) && OriginOk(origin, grants, now)
    ensures var run := runs[r];
            var stamped := if run.clock.config.Active() then run.(clock := Clock(run.clock.config, now, true)) else run;
            RunsOk(calls[id := calls[id].(granted := true)], grants + [g], created, WithoutHead(runs[r := stamped], r))
  {
    var run := runs[r];
    var stamped := if run.clock.config.Active() then run.(clock := Clock(run.clock.config, now, true)) else run;
    var after := WithoutHead(runs[r := stamped], r);
    assert RunOk(calls, grants, r, run);
    GrantOwnRun(calls, grants, origin, r, run, id, g, now);
    forall q | q in after
      ensures q < created && RunOk(calls[id := calls[id].(granted := true)], grants + [g], q, after[q])
    {
      if q != r {
        GrantOtherRun(calls, grants, r, id, g, q, runs[q]);
      }
    }
  }

  lemma GrantKeeps(s: State, id: nat, r: nat)
    requires Inv(s) && r in s.runs && s.runs[r].queue != [] && s.runs[r].queue[0] == id && id < |s.calls|
    requires !Gone(s.calls, id)
    requires s.origin.Ready(s.calls[id].width, s.now) && s.runs[r].clock.Ready(s.calls[id].width, s.now)
    ensures Inv(Granted(s, id, r))
  {
    var run := s.runs[r];
    var g := Grant(id, r, run.clock.config, s.calls[id].width, s.now);
    assert RunOk(s.calls, s.grants, r, run);
    GrantRunsOk(s.calls, s.grants, s.created, s.runs, s.origin, r, id, g, s.now);
    GrantHistory(s.calls, s.grants, s.created, r, run, id, g, s.now);
    GrantRecorded(s.calls, s.grants, id, g);
    GrantSpacing(s.calls, s.grants, s.origin, r, run, id, g, s.now);
    GrantOrigin(s.origin, s.grants, g, s.now);
  }

  lemma GrantOrigin(origin: Clock, grants: seq<Grant>, g: Grant, now: int)
    requires OriginOk(origin, grants, now) && g.time == now
    ensures OriginOk(Clock(origin.config, now, true), grants + [g], now)
  {
  }

  lemma SelectKeeps(s: State, r: nat)
    requires Inv(s) && r in s.runs && s.runs[r].queue != []
    ensures Inv(s.(selected := Some((s.runs[r].queue[0], r))))
  {
  }

  lemma SleepKeeps(s: State)
    requires Inv(s) && Drained(s.runs)
    ensures Inv(s.(running := false))
  {
  }

  /** The scheduler's decision about head id of run r. */
  lemma DecideKeeps(s: State, id: nat, r: nat, late: bool)
    requires Inv(s) && s.running && r in s.runs && s.runs[r].queue != [] && s.runs[r].queue[0] == id
    requires !Gone(s.calls, id)
    ensures id < |s.calls| && Inv(Decided(s, id, r, late))
  {
    assert RunOk(s.calls, s.grants, r, s.runs[r]);
    if late {
      DropKeeps(s, id, r);
    } else if s.origin.Ready(s.calls[id].width, s.now) && s.runs[r].clock.Ready(s.calls[id].width, s.now) {
      GrantKeeps(s, id, r);
    } else {
      SelectKeeps(s, r);
    }
  }

  predicate HeadsStay(s: State) {
    forall r :: r in s.runs && s.runs[r].queue != [] ==> !Gone(s.calls, s.runs[r].queue[0])
  }

  lemma PruneLeavesStaying(s: State)
    ensures HeadsStay(Pruned(s))
  {
    forall r | r in Pruned(s).runs && Pruned(s).runs[r].queue != []
      ensures !Gone(s.calls, Pruned(s).runs[r].queue[0])
    {
      PrunedHeadsStay(s, r);
    }
  }

  lemma ScheduledKeeps(s: State, choice: Option<(nat, nat)>, late: bool)
    requires Inv(s) && s.running && HeadsStay(s)
    requires if s.selected.Some? then choice.None? else IsChoice(s, choice)
    ensures Inv(Scheduled(s, choice, late))
  {
    var chosen := if s.selected.Some? then s.selected else choice;
    if chosen.Some? {
      DecideKeeps(s, chosen.value.0, chosen.value.1, late);
    } else if Drained(s.runs) && |s.runs| == 1 {
      SleepKeeps(s);
    }
  }

  lemma ScheduleKeeps(s: State, choice: Option<(nat, nat)>, late: bool)
    requires Inv(s) && Enabled(s, Schedule(choice, late))
    ensures Inv(Scheduled(Pruned(s), choice, late))
  {
    PruneKeeps(s);
    PruneLeavesStaying(s);
    ScheduledKeeps(Pruned(s), choice, late);
  }

  lemma StepKeeps(s: State, step: Step)
    requires Inv(s) && Enabled(s, step)
    ensures Inv(Next(s, step))
  {
    if step.Schedule? {
      ScheduleKeeps(s, step.choice, step.late);
    } else {
      ClientStepKeeps(s, step);
    }
  }

  // --------------------------------------------------------- the main results

  lemma StartOk(config: Config)
    ensures Inv(Start(config))
  {
    var idle := map[0 := Run(Clock(NO_LIMIT, 0, false), [], false)];
    assert RunOk([], [], 0, idle[0]);
    assert RunsOk([], [], 1, idle) && Drained(idle);
  }

  /** Every reachable state of the scheduler keeps the invariant: a non-empty queue
      has a running loop, the selected call heads its run's queue, grants within a
      run are in order of arrival, and all grants are spaced on both clocks. */
  lemma {:induction false} SchedulerInvariant(steps: seq<Step>, config: Config)
    requires Execute(steps, config).Some?
    ensures Inv(Execute(steps, config).value)
  {
    if steps == [] {
      StartOk(config);
    } else {
      SchedulerInvariant(steps[..|steps| - 1], config);
      StepKeeps(Execute(steps[..|steps| - 1], config).value, steps[|steps| - 1]);
    }
  }

  // ------------------------------------------------------------ no call is lost

  /** The call has neither been granted nor ended. */
  predicate Waiting(c: Admission) { !c.granted && !c.done && !c.cancelled }

  predicate Queued(runs: map<nat, Run>, r: nat, id: nat) { r in runs && id in runs[r].queue }

  predicate NoneLost(calls: seq<Admission>, runs: map<nat, Run>) {
    forall id :: 0 <= id < |calls| && Waiting(calls[id]) ==> Queued(runs, calls[id].run, id)
  }

  lemma EnqueueLosesNone(calls: seq<Admission>, runs: map<nat, Run>, r: nat, c: Admission)
    requires NoneLost(calls, runs) && r in runs && c.run == r
    ensures NoneLost(calls + [c], runs[r := runs[r].(queue := runs[r].queue + [|calls|])])
  {
    var after := runs[r := runs[r].(queue := runs[r].queue + [|calls|])];
    forall id | 0 <= id < |calls + [c]| && Waiting((calls + [c])[id])
      ensures Queued(after, (calls + [c])[id].run, id)
    {
      if id < |calls| {
        assert Queued(runs, calls[id].run, id);
      }
    }
  }

  /** A call that ends, or is granted, waits no longer. */
  lemma FlagsLoseNone(calls: seq<Admission>, runs: map<nat, Run>, id: nat, c: Admission)
    requires NoneLost(calls, runs) && id < |calls| && c.run == calls[id].run && (Waiting(c) ==> Waiting(calls[id]))
    ensures NoneLost(calls[id := c], runs)
  {
  }

  /** Pruning takes only calls that ended, and only runs without waiting calls. */
  lemma PruneLosesNone(calls: seq<Admission>, runs: map<nat, Run>)
    requires NoneLost(calls, runs)
    ensures NoneLost(calls, PrunedRuns(calls, runs))
  {
    forall id | 0 <= id < |calls| && Waiting(calls[id])
      ensures Queued(PrunedRuns(calls, runs), calls[id].run, id)
    {
      assert Queued(runs, calls[id].run, id);
      StaysLive(calls, runs[calls[id].run].queue, id);
    }
  }

  lemma {:induction false} StaysLive(calls: seq<Admission>, queue: seq<nat>, id: nat)
    requires id in queue && !Gone(calls, id)
    ensures id in Live(calls, queue)
  {
    if Gone(calls, queue[0]) {
      StaysLive(calls, queue[1..], id);
    }
  }

  /** The head of a queue leaves it once it waits no longer. */
  lemma HeadLosesNone(calls: seq<Admission>, runs: map<nat, Run>, r: nat)
    requires NoneLost(calls, runs) && r in runs && runs[r].queue != []
    requires runs[r].queue[0] < |calls| && !Waiting(calls[runs[r].queue[0]])
    ensures NoneLost(calls, WithoutHead(runs, r))
  {
    forall id | 0 <= id < |calls| && Waiting(calls[id])
      ensures Queued(WithoutHead(runs, r), calls[id].run, id)
    {
      assert Queued(runs, calls[id].run, id);
      if calls[id].run == r {
        var k :| 0 <= k < |runs[r].queue| && runs[r].queue[k] == id;
        assert runs[r].queue[1..][k - 1] == id;
      }
    }
  }

  lemma DecidedLosesNone(s: State, id: nat, r: nat, late: bool)
    requires NoneLost(s.calls, s.runs) && r in s.runs && s.runs[r].queue != [] && id < |s.calls|
    requires s.runs[r].queue[0] == id
    ensures NoneLost(Decided(s, id, r, late).calls, Decided(s, id, r, late).runs)
  {
    if late {
      FlagsLoseNone(s.calls, s.runs, id, s.calls[id].(done := true));
      HeadLosesNone(s.calls[id := s.calls[id].(done := true)], s.runs, r);
    } else if s.origin.Ready(s.calls[id].width, s.now) && s.runs[r].clock.Ready(s.calls[id].width, s.now) {
      var run, calls := s.runs[r], s.calls[id := s.calls[id].(granted := true)];
      var stamped := if run.clock.config.Active() then run.(clock := Clock(run.clock.config, s.now, true)) else run;
      FlagsLoseNone(s.calls, s.runs, id, s.calls[id].(granted := true));
      StampLosesNone(calls, s.runs, r, stamped);
      HeadLosesNone(calls, s.runs[r := stamped], r);
    }
  }

  lemma StampLosesNone(calls: seq<Admission>, runs: map<nat, Run>, r: nat, run: Run)
    requires NoneLost(calls, runs) && r in runs && run.queue == runs[r].queue
    ensures NoneLost(calls, runs[r := run])
  {
    forall id | 0 <= id < |calls| && Waiting(calls[id])
      ensures Queued(runs[r := run], calls[id].run, id)
    {
      assert Queued(runs, calls[id].run, id);
    }
  }

  predicate HeadsAreCalls(calls: seq<Admission>, runs: map<nat, Run>) {
    forall r :: r in runs && runs[r].queue != [] ==> runs[r].queue[0] < |calls|
  }

  lemma QueuesHoldCalls(calls: seq<Admission>, grants: seq<Grant>, created: nat, runs: map<nat, Run>)
    requires RunsOk(calls, grants, created, runs)
    ensures HeadsAreCalls(calls, runs)
  {
    forall r | r in runs && runs[r].queue != []
      ensures runs[r].queue[0] < |calls|
    {
      assert RunOk(calls, grants, r, runs[r]);
    }
  }

  lemma ScheduledLosesNone(s: State, choice: Option<(nat, nat)>, late: bool)
    requires HeadsAreCalls(s.calls, s.runs) && SelectedOk(s.runs, s.selected) && NoneLost(s.calls, s.runs)
    requires if s.selected.Some? then choice.None? else IsChoice(s, choice)
    ensures NoneLost(Scheduled(s, choice, late).calls, Scheduled(s, choice, late).runs)
  {
    var chosen := if s.selected.Some? then s.selected else choice;
    if chosen.Some? {
      DecidedLosesNone(s, chosen.value.0, chosen.value.1, late);
    }
  }

  lemma ScheduleLosesNone(s: State, choice: Option<(nat, nat)>, late: bool)
    requires Inv(s) && Enabled(s, Schedule(choice, late)) && NoneLost(s.calls, s.runs)
    ensures var t := Scheduled(Pruned(s), choice, late); NoneLost(t.calls, t.runs)
  {
    PruneKeeps(s);
    PruneLosesNone(s.calls, s.runs);
    QueuesHoldCalls(s.calls, s.grants, s.created, Pruned(s).runs);
    ScheduledLosesNone(Pruned(s), choice, late);
  }

  lemma NewRunLosesNone(calls: seq<Admission>, runs: map<nat, Run>, r: nat, run: Run)
    requires NoneLost(calls, runs) && r !in runs
    ensures NoneLost(calls, runs[r := run])
  {
    forall id | 0 <= id < |calls| && Waiting(calls[id])
      ensures Queued(runs[r := run], calls[id].run, id)
    {
      assert Queued(runs, calls[id].run, id);
    }
  }

  lemma CloseLosesNone(calls: seq<Admission>, runs: map<nat, Run>, r: nat)
    requires NoneLost(calls, runs) && r in runs
    ensures var closed := runs[r].(closed := true);
            NoneLost(calls, if Ended(r, closed) then runs - {r} else runs[r := closed])
  {
    var closed := runs[r].(closed := true);
    var after := if Ended(r, closed) then runs - {r} else runs[r := closed];
    forall id | 0 <= id < |calls| && Waiting(calls[id])
      ensures Queued(after, calls[id].run, id)
    {
      assert Queued(runs, calls[id].run, id);
    }
  }

  lemma StepLosesNone(s: State, step: Step)
    requires Inv(s) && Enabled(s, step) && NoneLost(s.calls, s.runs)
    ensures NoneLost(Next(s, step).calls, Next(s, step).runs)
  {
    match step
    case Tick(_) =>
    case NewRun(config) => NewRunLosesNone(s.calls, s.runs, s.created, Run(Clock(config, 0, false), [], false));
    case Enqueue(r, width) => EnqueueLosesNone(s.calls, s.runs, r, Admission(r, width, false, false, false, None));
    case ContextEnds(id) => FlagsLoseNone(s.calls, s.runs, id, s.calls[id].(done := true));
    case WaitReturns(id) =>
      var c := s.calls[id];
      FlagsLoseNone(s.calls, s.runs, id, c.(cancelled := !c.granted, returned := Some(c.granted)));
    case CloseRun(r) => CloseLosesNone(s.calls, s.runs, r);
    case Schedule(choice, late) => ScheduleLosesNone(s, choice, late);
  }

  /** In every reachable state a call that has neither been granted nor ended is in the
      queue of its run, the loop is running, and its place there is its order of arrival. */
  lemma {:induction false} WaitingIsQueued(steps: seq<Step>, config: Config)
    requires Execute(steps, config).Some?
    ensures var s := Execute(steps, config).value;
            && NoneLost(s.calls, s.runs)
            && forall id :: 0 <= id < |s.calls| && Waiting(s.calls[id]) ==> s.running
  {
    SchedulerInvariant(steps, config);
    if steps != [] {
      var before := steps[..|steps| - 1];
      SchedulerInvariant(before, config);
      WaitingIsQueued(before, config);
      StepLosesNone(Execute(before, config).value, steps[|steps| - 1]);
    }
    var s := Execute(steps, config).value;
    forall id | 0 <= id < |s.calls| && Waiting(s.calls[id])
      ensures s.running
    {
      assert Queued(s.runs, s.calls[id].run, id);
    }
  }

  /** What no scheduler decision changes: the configuration and what calls reported. */
  predicate KeepsReports(s: State, t: State) {
    && t.origin.config == s.origin.config && |t.calls| >= |s.calls|
    && forall id :: 0 <= id < |s.calls| && s.calls[id].returned.Some? ==> t.calls[id].returned == s.calls[id].returned
  }

  lemma DecisionSettles(s: State, id: nat, r: nat, late: bool)
    requires r in s.runs && s.runs[r].queue != [] && id < |s.calls|
    ensures KeepsReports(s, Decided(s, id, r, late))
  {
  }

  lemma ScheduledSettles(p: State, choice: Option<(nat, nat)>, late: bool)
    ensures KeepsReports(p, Scheduled(p, choice, late))
  {
    var chosen := if p.selected.Some? then p.selected else choice;
    if chosen.Some? && chosen.value.0 < |p.calls| && chosen.value.1 in p.runs && p.runs[chosen.value.1].queue != [] {
      DecisionSettles(p, chosen.value.0, chosen.value.1, late);
    }
  }

  lemma ScheduleSettles(s: State, choice: Option<(nat, nat)>, late: bool)
    ensures KeepsReports(s, Scheduled(Pruned(s), choice, late))
  {
    var p := Pruned(s);
    assert p.calls == s.calls && p.origin == s.origin;
    ScheduledSettles(p, choice, late);
  }

  lemma StepSettles(s: State, step: Step)
    requires Enabled(s, step)
    ensures KeepsReports(s, Next(s, step))
  {
    if step.Schedule? {
      ScheduleSettles(s, step.choice, step.late);
    }
  }

  lemma {:induction false} OriginConfig(steps: seq<Step>, config: Config)
    requires Execute(steps, config).Some?
    ensures Execute(steps, config).value.origin.config == config
  {
    if steps != [] {
      OriginConfig(steps[..|steps| - 1], config);
      StepSettles(Execute(steps[..|steps| - 1], config).value, steps[|steps| - 1]);
    }
  }

  /** A queued call always has a running loop, and only the head of a run's queue is
      ever selected. */
  lemma QueueImpliesRunning(steps: seq<Step>, config: Config, r: nat)
    requires Execute(steps, config).Some?
    ensures var s := Execute(steps, config).value;
            && (r in s.runs && s.runs[r].queue != [] ==> s.running)
            && SelectedOk(s.runs, s.selected)
  {
    SchedulerInvariant(steps, config);
  }

  /** Any two grants are spaced on the origin's clock, and two grants of one run also on
      that run's clock; within a run they follow the order of arrival. */
  lemma GrantsAreSpaced(steps: seq<Step>, config: Config, i: nat, j: nat)
    requires Execute(steps, config).Some? && i < j < |Execute(steps, config).value.grants|
    ensures var g := Execute(steps, config).value.grants;
            && Spaced(config, g[i], g[j])
            && (g[i].run == g[j].run ==> Spaced(g[j].config, g[i], g[j]) && g[i].id < g[j].id)
  {
    SchedulerInvariant(steps, config);
    OriginConfig(steps, config);
  }

  function Count(grants: seq<Grant>, id: nat): nat {
    if grants == [] then 0
    else Count(grants[..|grants| - 1], id) + if grants[|grants| - 1].id == id then 1 else 0
  }

  lemma RecordedSplit(grants: seq<Grant>, g: Grant, id: nat)
    ensures Recorded(grants + [g], id) <==> Recorded(grants, id) || g.id == id
  {
    if Recorded(grants, id) {
      var k :| 0 <= k < |grants| && grants[k].id == id;
      assert (grants + [g])[k].id == id;
    }
    assert (grants + [g])[|grants|] == g;
  }

  lemma {:induction false} CountIsMembership(grants: seq<Grant>, id: nat)
    requires forall i, j :: 0 <= i < j < |grants| ==> grants[i].id != grants[j].id
    ensures Count(grants, id) == if Recorded(grants, id) then 1 else 0
  {
    if grants != [] {
      var n := |grants| - 1;
      CountIsMembership(grants[..n], id);
      RecordedSplit(grants[..n], grants[n], id);
      assert grants == grants[..n] + [grants[n]];
    }
  }

  lemma RecordedIsGranted(calls: seq<Admission>, created: nat, grants: seq<Grant>, id: nat)
    requires GrantsOk(calls, created, grants) && id < |calls| && Recorded(grants, id)
    ensures calls[id].granted
  {
    var k :| 0 <= k < |grants| && grants[k].id == id;
    assert GrantOk(calls, created, grants[k]);
  }

  /** A wait that reports success was granted exactly once; one that reports an error
      was never granted. */
  lemma ReturnsTellTheTruth(steps: seq<Step>, config: Config, id: nat)
    requires Execute(steps, config).Some? && id < |Execute(steps, config).value.calls|
    requires Execute(steps, config).value.calls[id].returned.Some?
    ensures var s := Execute(steps, config).value;
            Count(s.grants, id) == if s.calls[id].returned.value then 1 else 0
  {
    SchedulerInvariant(steps, config);
    var s := Execute(steps, config).value;
    CountIsMembership(s.grants, id);
    assert CallOk(s.calls[id]);
    if Recorded(s.grants, id) {
      RecordedIsGranted(s.calls, s.created, s.grants, id);
    }
  }

  /** The report of a wait is final, so that an error is never followed by a grant. */
  lemma ReportIsFinal(steps: seq<Step>, config: Config, step: Step, id: nat)
    requires Execute(steps, config).Some? && Enabled(Execute(steps, config).value, step)
    requires id < |Execute(steps, config).value.calls| && Execute(steps, config).value.calls[id].returned.Some?
    ensures var t := Next(Execute(steps, config).value, step);
            id < |t.calls| && t.calls[id].returned == Execute(steps, config).value.calls[id].returned
  {
    StepSettles(Execute(steps, config).value, step);
  }

  // ---------------------------------------------------------------- rate bounds

  function Widths(grants: seq<Grant>): int {
    if grants == [] then 0 else Widths(grants[..|grants| - 1]) + grants[|grants| - 1].width
  }

  /** The interval of this width is representable, so that it is not cut short. */
  predicate Representable(width: int, rate: real)
    requires rate > 0.0
  {
    (1.0 - LOSS) * Exact(width, rate) <= MAX_DURATION as real
  }

  predicate PairwiseSpaced(c: Config, grants: seq<Grant>) {
    forall i, j :: 0 <= i < j < |grants| ==> Spaced(c, grants[i], grants[j])
  }

  lemma GapPays(c: Config, rate: real, a: Grant, b: Grant)
    requires c.rate == PerSecond(rate) && rate > 0.0 && Spaced(c, a, b) && Representable(b.width, rate)
    ensures Pays(rate, a, b)
  {
    var d := RequestInterval(b.width, c.rate);
    if b.width > 0 {
      IntervalPays(b.width, rate, d);
    } else {
      NothingToPay(b.width, rate, d);
    }
    LongerPays((1.0 - LOSS) * (b.width * SECOND) as real, rate, d, b.time - a.time);
  }

  lemma NothingToPay(width: int, rate: real, d: nat)
    requires width <= 0 && rate > 0.0
    ensures (1.0 - LOSS) * (width * SECOND) as real <= rate * d as real
  {
    MulReal(rate, 0.0, d as real);
  }

  lemma LongerPays(x: real, rate: real, d: int, gap: int)
    requires rate > 0.0 && d <= gap && x <= rate * d as real
    ensures x <= rate * gap as real
  {
    MulReal(rate, d as real, gap as real);
  }

  lemma IntervalPays(width: int, rate: real, d: int)
    requires width > 0 && rate > 0.0 && Representable(width, rate) && d == RequestInterval(width, PerSecond(rate))
    ensures (1.0 - LOSS) * (width * SECOND) as real <= rate * d as real
  {
    IntervalMeetsRate(width, rate);
    ScaleUp((width * SECOND) as real, rate, d as real);
  }

  lemma ScaleUp(x: real, rate: real, d: real)
    requires rate > 0.0 && d >= (1.0 - LOSS) * (x / rate)
    ensures (1.0 - LOSS) * x <= rate * d
  {
    var q := x / rate;
    assert q * rate == x;
    MulReal(rate, (1.0 - LOSS) * q, d);
    assert rate * ((1.0 - LOSS) * q) == (1.0 - LOSS) * (q * rate);
  }

  lemma MulReal(rate: real, a: real, b: real)
    requires rate > 0.0 && a <= b
    ensures rate * a <= rate * b
  {
  }

  lemma WindowSpaced(c: Config, grants: seq<Grant>, a: nat, b: nat)
    requires PairwiseSpaced(c, grants) && a <= b <= |grants|
    ensures PairwiseSpaced(c, grants[a..b])
  {
  }

  /** Up to the rounding loss, the widths granted after the first grant of a window sum to
      at most the rate times the length of the window. */
  ghost predicate WithinRate(rate: real, window: seq<Grant>)
    requires window != []
  {
    (1.0 - LOSS) * (Widths(window[1..]) * SECOND) as real <= rate * (window[|window| - 1].time - window[0].time) as real
  }

  predicate AllRepresentable(rate: real, grants: seq<Grant>)
    requires rate > 0.0
  {
    forall k :: 0 <= k < |grants| ==> Representable(grants[k].width, rate)
  }

  lemma WidthsGrow(grants: seq<Grant>)
    requires |grants| > 1
    ensures var n := |grants| - 1; Widths(grants[1..]) == Widths(grants[..n][1..]) + grants[n].width
  {
    var n := |grants| - 1;
    assert grants[..n][1..] == grants[1..][..n - 1];
    assert grants[1..][n - 1] == grants[n];
  }

  lemma AddGap(rate: real, widths: int, width: int, early: int, gap: int)
    requires (1.0 - LOSS) * (widths * SECOND) as real <= rate * early as real
    requires (1.0 - LOSS) * (width * SECOND) as real <= rate * gap as real
    ensures (1.0 - LOSS) * ((widths + width) * SECOND) as real <= rate * (early + gap) as real
  {
    assert rate * (early as real + gap as real) == rate * early as real + rate * gap as real;
  }

  /** The gap from a to b pays for the width of b. */
  predicate Pays(rate: real, a: Grant, b: Grant) {
    (1.0 - LOSS) * (b.width * SECOND) as real <= rate * (b.time - a.time) as real
  }

  predicate GapsPay(rate: real, grants: seq<Grant>) {
    forall k :: 0 < k < |grants| ==> Pays(rate, grants[k - 1], grants[k])
  }

  lemma {:induction false} GapsAddUp(rate: real, grants: seq<Grant>)
    requires |grants| > 0 && GapsPay(rate, grants)
    ensures WithinRate(rate, grants)
  {
    var n := |grants| - 1;
    if n > 0 {
      GapsAddUp(rate, grants[..n]);
      WidthsGrow(grants);
      assert Pays(rate, grants[n - 1], grants[n]);
      AddGap(rate, Widths(grants[..n][1..]), grants[n].width, grants[n - 1].time - grants[0].time,
             grants[n].time - grants[n - 1].time);
    }
  }

  lemma WindowRate(c: Config, rate: real, grants: seq<Grant>)
    requires c.rate == PerSecond(rate) && rate > 0.0 && |grants| > 0 && PairwiseSpaced(c, grants)
    requires AllRepresentable(rate, grants)
    ensures WithinRate(rate, grants)
  {
    forall k | 0 < k < |grants|
      ensures Pays(rate, grants[k - 1], grants[k])
    {
      GapPays(c, rate, grants[k - 1], grants[k]);
    }
    GapsAddUp(rate, grants);
  }

  lemma SpacingPairwise(config: Config, grants: seq<Grant>)
    requires SpacingOk(config, grants)
    ensures PairwiseSpaced(config, grants)
  {
  }

  function OfRun(grants: seq<Grant>, r: nat): (f: seq<Grant>)
    ensures forall g <- f :: g in grants && g.run == r
  {
    if grants == [] then []
    else
      var last := grants[|grants| - 1];
      OfRun(grants[..|grants| - 1], r) + if last.run == r then [last] else []
  }

  lemma {:induction false} OfRunSpaced(config: Config, c: Config, grants: seq<Grant>, r: nat)
    requires SpacingOk(config, grants) && forall k :: 0 <= k < |grants| && grants[k].run == r ==> grants[k].config == c
    ensures PairwiseSpaced(c, OfRun(grants, r))
  {
    if grants != [] {
      var n := |grants| - 1;
      OfRunSpaced(config, c, grants[..n], r);
      var before := OfRun(grants[..n], r);
      forall i | 0 <= i < |before| && grants[n].run == r
        ensures Spaced(c, before[i], grants[n])
      {
        assert before[i] in grants[..n];
        var k :| 0 <= k < n && grants[k] == before[i];
        assert grants[n] in grants;
      }
    }
  }

  /** The rate limits the whole origin, over any window of any run. */
  lemma OriginRate(steps: seq<Step>, config: Config, rate: real, a: nat, b: nat)
    requires Execute(steps, config).Some? && config.rate == PerSecond(rate) && rate > 0.0
    requires a < b <= |Execute(steps, config).value.grants|
    requires AllRepresentable(rate, Execute(steps, config).value.grants[a..b])
    ensures WithinRate(rate, Execute(steps, config).value.grants[a..b])
  {
    SchedulerInvariant(steps, config);
    OriginConfig(steps, config);
    var grants := Execute(steps, config).value.grants;
    SpacingPairwise(config, grants);
    WindowSpaced(config, grants, a, b);
    WindowRate(config, rate, grants[a..b]);
  }

  /** The grants of a run share its configuration. */
  lemma RunSpaced(calls: seq<Admission>, created: nat, grants: seq<Grant>, config: Config, k: nat)
    requires GrantsOk(calls, created, grants) && SpacingOk(config, grants) && k < |grants|
    ensures PairwiseSpaced(grants[k].config, OfRun(grants, grants[k].run))
  {
    OfRunSpaced(config, grants[k].config, grants, grants[k].run);
  }

  /** The rate limits every run, live or ended, over any window of its own grants. */
  lemma RunRate(steps: seq<Step>, config: Config, r: nat, rate: real, a: nat, b: nat)
    requires Execute(steps, config).Some? && a < b <= |OfRun(Execute(steps, config).value.grants, r)|
    requires OfRun(Execute(steps, config).value.grants, r)[a].config.rate == PerSecond(rate) && rate > 0.0
    requires AllRepresentable(rate, OfRun(Execute(steps, config).value.grants, r)[a..b])
    ensures WithinRate(rate, OfRun(Execute(steps, config).value.grants, r)[a..b])
  {
    SchedulerInvariant(steps, config);
    var s := Execute(steps, config).value;
    var own := OfRun(s.grants, r);
    assert own[a] in s.grants && own[a].run == r;
    var k :| 0 <= k < |s.grants| && s.grants[k] == own[a];
    RunSpaced(s.calls, s.created, s.grants, s.origin.config, k);
    WindowSpaced(own[a].config, own, a, b);
    WindowRate(own[a].config, rate, own[a..b]);
  }
}
