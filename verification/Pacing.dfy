/** The pacing scheduler of one origin: admissions queue per run, the scheduler grants
    one at a time, and waiters can be cancelled at any moment. Time is in
    nanoseconds. */
module Pacing {
  import opened Sequences
  import opened Float64

  const SECOND := 1_000_000_000
  const MAX_DURATION := 0x7fff_ffff_ffff_ffff

  // --------------------------------------------------------------------- clocks

  /** A request rate; infinity and non-positive values add no constraint. */
  datatype Rate = Infinite | PerSecond(value: real)

  datatype Config = Config(rate: Rate, interval: int) {
    predicate Active() { rate.Infinite? || rate.value > 0.0 || interval > 0 }
  }

  function Ceiling(x: real): int { -((-x).Floor) }

  /** The quotient in nanoseconds as floating point computes it: the width, the product
      and the quotient are rounded. */
  function Quotient(width: int, rate: real): (q: real)
    requires width > 0 && rate > 0.0
    ensures q > 0.0
  {
    RoundIsPositive(width as real);
    RoundIsPositive(Round(width as real) * SECOND as real);
    RatioIsPositive(Round(Round(width as real) * SECOND as real), rate);
    RoundIsPositive(Round(Round(width as real) * SECOND as real) / rate);
    Round(Round(Round(width as real) * SECOND as real) / rate)
  }

  lemma RoundIsPositive(x: real)
    requires x > 0.0
    ensures Round(x) > 0.0
  {
    RoundIsClose(x);
  }

  lemma RatioIsPositive(x: real, y: real)
    requires x > 0.0 && y > 0.0
    ensures x / y > 0.0
  {
  }

  function RequestInterval(width: int, rate: Rate): (d: int)
    ensures 0 <= d <= MAX_DURATION
  {
    if width <= 0 || rate.Infinite? || rate.value <= 0.0 then 0
    else
      var nanos := Ceiling(Quotient(width, rate.value));
      if nanos >= MAX_DURATION then MAX_DURATION else nanos
  }

  /** What three roundings can take away or add. */
  const LOSS := 4.0 * UNIT

  function Exact(width: int, rate: real): real
    requires rate > 0.0
  {
    (width * SECOND) as real / rate
  }

  lemma Ratio(x: real, y: real, rate: real)
    requires x <= y && rate > 0.0
    ensures x / rate <= y / rate
  {
  }

  lemma ThreeRoundingsUp(w: real, a: real, b: real)
    requires w > 0.0 && a <= w + w * UNIT && b <= a * SECOND as real + a * SECOND as real * UNIT
    ensures b + b * UNIT <= (1.0 + LOSS) * (w * SECOND as real)
  {
  }

  lemma ThreeRoundings(w: real, a: real, b: real)
    requires w > 0.0 && a >= w - w * UNIT && b >= a * SECOND as real - a * SECOND as real * UNIT
    ensures b - b * UNIT >= (1.0 - LOSS) * (w * SECOND as real)
  {
  }

  /** The computed quotient falls short of the exact one by at most the loss. */
  lemma QuotientIsNear(width: int, rate: real)
    requires width > 0 && rate > 0.0
    ensures Quotient(width, rate) >= (1.0 - LOSS) * Exact(width, rate)
  {
    var w := width as real;
    var a := Rounded(w);
    var b := Rounded(a * SECOND as real);
    ThreeRoundings(w, a, b);
    RatioIsPositive(b, rate);
    var q := Rounded(b / rate);
    NearQuotient((width * SECOND) as real, b, rate, q);
  }

  /** It exceeds it by at most as much. */
  lemma QuotientIsNearUp(width: int, rate: real)
    requires width > 0 && rate > 0.0
    ensures Quotient(width, rate) <= (1.0 + LOSS) * Exact(width, rate)
  {
    var w := width as real;
    var a := RoundedUp(w);
    var b := RoundedUp(a * SECOND as real);
    ThreeRoundingsUp(w, a, b);
    RatioIsPositive(b, rate);
    var q := RoundedUp(b / rate);
    NearQuotientUp((width * SECOND) as real, b, rate, q);
  }

  lemma NearQuotient(x: real, b: real, rate: real, q: real)
    requires rate > 0.0 && b - b * UNIT >= (1.0 - LOSS) * x && q >= b / rate - b / rate * UNIT
    ensures q >= (1.0 - LOSS) * (x / rate)
  {
    Ratio((1.0 - LOSS) * x, b - b * UNIT, rate);
    Linear(b, rate, UNIT);
    Linear(x, rate, LOSS);
  }

  lemma NearQuotientUp(x: real, b: real, rate: real, q: real)
    requires rate > 0.0 && b + b * UNIT <= (1.0 + LOSS) * x && q <= b / rate + b / rate * UNIT
    ensures q <= (1.0 + LOSS) * (x / rate)
  {
    Ratio(b + b * UNIT, (1.0 + LOSS) * x, rate);
    Linear(b, rate, -UNIT);
    Linear(x, rate, -LOSS);
  }

  lemma Rounded(x: real) returns (r: real)
    requires x > 0.0
    ensures r == Round(x) && r > 0.0 && r >= x - x * UNIT
  {
    r := Round(x);
    RoundIsClose(x);
  }

  lemma RoundedUp(x: real) returns (r: real)
    requires x > 0.0
    ensures r == Round(x) && r > 0.0 && r <= x + x * UNIT
  {
    r := Round(x);
    RoundIsClose(x);
  }

  lemma Linear(x: real, rate: real, e: real)
    requires rate > 0.0
    ensures (x - x * e) / rate == x / rate - x / rate * e && ((1.0 - e) * x) / rate == (1.0 - e) * (x / rate)
  {
    var q := x / rate;
    assert q * rate == x;
    assert (q - q * e) * rate == x - x * e;
    assert (1.0 - e) * q * rate == (1.0 - e) * x;
  }

  /** Up to the loss, the interval is at least width/rate seconds unless that exceeds the
      longest duration, about 292 years, and then it is too short. */
  lemma IntervalMeetsRate(width: int, rate: real)
    requires width > 0 && rate > 0.0
    ensures RequestInterval(width, PerSecond(rate)) as real >= (1.0 - LOSS) * Exact(width, rate) <==>
            (1.0 - LOSS) * Exact(width, rate) <= MAX_DURATION as real
  {
    QuotientIsNear(width, rate);
    var q := Quotient(width, rate);
    assert Ceiling(q) as real >= q;
  }

  /** The interval is longer than width/rate seconds by less than a nanosecond and the loss. */
  lemma IntervalIsTight(width: int, rate: real)
    requires width > 0 && rate > 0.0
    ensures RequestInterval(width, PerSecond(rate)) as real < (1.0 + LOSS) * Exact(width, rate) + 1.0
  {
    QuotientIsNearUp(width, rate);
    var q := Quotient(width, rate);
    assert Ceiling(q) as real < q + 1.0;
  }

  /** Without the loss it is so exactly if the computed quotient also rounds up to as many
      whole nanoseconds as the exact one. */
  lemma IntervalMeetsRateExactly(width: int, rate: real)
    requires width > 0 && rate > 0.0
    ensures RequestInterval(width, PerSecond(rate)) as real >= Exact(width, rate) <==>
            Exact(width, rate) <= MAX_DURATION as real && Ceiling(Exact(width, rate)) <= Ceiling(Quotient(width, rate))
  {
    var exact, q := Exact(width, rate), Quotient(width, rate);
    RatioIsPositive((width * SECOND) as real, rate);
    assert Ceiling(exact) as real >= exact > Ceiling(exact) as real - 1.0;
    assert Ceiling(q) as real >= q > Ceiling(q) as real - 1.0;
  }

  /** A caller can rely on the exact interval if the product of width and second and the
      quotient have at most 53 significant bits. */
  lemma FittingRateIsMet(width: int, rate: real)
    requires width > 0 && rate > 0.0 && (width * SECOND) as real < TWICE && Fits(Exact(width, rate))
    ensures Quotient(width, rate) == Exact(width, rate)
    ensures RequestInterval(width, PerSecond(rate)) as real >= Exact(width, rate) <==>
            Exact(width, rate) <= MAX_DURATION as real
  {
    WholeFits(width);
    FittingIsKept(width as real);
    WholeFits(width * SECOND);
    FittingIsKept((width * SECOND) as real);
    RatioIsPositive((width * SECOND) as real, rate);
    FittingIsKept(Exact(width, rate));
    IntervalMeetsRateExactly(width, rate);
  }

  /** For any rate the interval falls short by at most a nanosecond, up to 26 days. */
  lemma ShortByANanosecond(width: int, rate: real)
    requires width > 0 && rate > 0.0 && Exact(width, rate) <= 2251799813685248.0
    ensures RequestInterval(width, PerSecond(rate)) as real >= Exact(width, rate) - 1.0
  {
    IntervalMeetsRate(width, rate);
    RatioIsPositive((width * SECOND) as real, rate);
  }

  /** A rate of one request in a thousand years falls short of its interval. */
  lemma TinyRateIsTooFast()
    ensures Exact(1, 0.0000000000317) > RequestInterval(1, PerSecond(0.0000000000317)) as real
  {
    assert (1 * SECOND) as real / 0.0000000000317 > MAX_DURATION as real;
  }

  /** A third of a thousand million per second, as floating point has it: 53 bits. */
  const THIRD := 5592405333333333.0 / 16777216.0

  lemma ThirdQuotient()
    ensures Quotient(1, THIRD) == 3.0 && Exact(1, THIRD) > 3.0
  {
    SomePowers();
    RoundExact(1.0, 52, MANTISSA, 4503599627370496);
    RoundExact(1000000000.0, 23, 8388608.0, 8388608000000000);
    var x := 1000000000.0 / THIRD;
    assert x == 16777216000000000.0 / 5592405333333333.0;
    var m := x * 2251799813685248.0;
    RoundScaled(x, 51, 2251799813685248.0, m);
    assert NearestEven(m) == 6755399441055744;
  }

  /** At this rate the interval for one request is 3 nanoseconds, and the exact one is
      longer: rounding, not saturation, cuts it. */
  lemma RoundedRateIsTooFast()
    ensures RequestInterval(1, PerSecond(THIRD)) == 3 && Exact(1, THIRD) > 3.0
  {
    ThirdQuotient();
  }

  /** One clock. last is the actual release of the previous grant. */
  datatype Clock = Clock(config: Config, last: int, started: bool) {
    /** now is not before the time at which a batch of this width may start. */
    predicate Ready(width: int, now: int) {
      !started ||
      (last + config.interval <= now && (RequestInterval(width, config.rate) > 0 ==>
                                           last + RequestInterval(width, config.rate) <= now))
    }
  }

  // ------------------------------------------------------------------ the state

  /** A waiting call, numbered in order of arrival. done: its context has ended;
      cancelled: the call gave up; returned: what the call reported, if it ended. */
  datatype Admission =
    Admission(run: nat, width: int, done: bool, cancelled: bool, granted: bool, returned: Option<bool>)

  datatype Run = Run(clock: Clock, queue: seq<nat>, closed: bool)

  /** config is the configuration of the run. */
  datatype Grant = Grant(id: nat, run: nat, config: Config, width: int, time: int)

  /** Run 0 serves direct calls, created counts the runs, grants is the history. */
  datatype State = State(now: int, origin: Clock, runs: map<nat, Run>, created: nat, running: bool,
                         selected: Option<(nat, nat)>, calls: seq<Admission>, grants: seq<Grant>)

  const NO_LIMIT := Config(PerSecond(0.0), 0)

  function Start(config: Config): State {
    State(0, Clock(config, 0, false), map[0 := Run(Clock(NO_LIMIT, 0, false), [], false)], 1, false, None, [], [])
  }

  datatype Step =
    | Tick(now: int)
    | NewRun(config: Config)
    | Enqueue(run: nat, width: int)
    | ContextEnds(id: nat)
    | WaitReturns(id: nat)
    | CloseRun(run: nat)
    | Schedule(choice: Option<(nat, nat)>, late: bool)

  // -------------------------------------------------------------- the scheduler

  predicate Gone(calls: seq<Admission>, id: nat) {
    id < |calls| && (calls[id].cancelled || calls[id].done)
  }

  /** The queue without its leading cancelled entries. */
  function Live(calls: seq<Admission>, queue: seq<nat>): (r: seq<nat>)
    ensures |r| <= |queue| && r == queue[|queue| - |r|..]
    ensures forall k :: 0 <= k < |queue| - |r| ==> Gone(calls, queue[k])
    ensures r != [] ==> !Gone(calls, r[0])
    ensures queue != [] && !Gone(calls, queue[0]) ==> r == queue
  {
    if queue != [] && Gone(calls, queue[0]) then
      var rest := queue[1..];
      assert forall k :: 0 < k < |queue| ==> queue[k] == rest[k - 1];
      Live(calls, rest)
    else queue
  }

  predicate Ended(r: nat, run: Run) { r != 0 && run.closed && run.queue == [] }

  function PrunedRun(calls: seq<Admission>, run: Run): Run { run.(queue := Live(calls, run.queue)) }

  function PrunedRuns(calls: seq<Admission>, runs: map<nat, Run>): map<nat, Run> {
    map r | r in runs && !Ended(r, PrunedRun(calls, runs[r])) :: PrunedRun(calls, runs[r])
  }

  function Pruned(s: State): State {
    s.(runs := PrunedRuns(s.calls, s.runs),
       selected := if s.selected.Some? && Gone(s.calls, s.selected.value.0) then None else s.selected)
  }

  /** The head of run r's queue may start on the run's own clock. */
  predicate HeadReady(s: State, r: nat) {
    && r in s.runs && s.runs[r].queue != [] && s.runs[r].queue[0] < |s.calls|
    && s.runs[r].clock.Ready(s.calls[s.runs[r].queue[0]].width, s.now)
  }

  /** choice is the ready head that arrived first, with its run. */
  ghost predicate IsChoice(s: State, choice: Option<(nat, nat)>) {
    if choice.None? then forall r :: !HeadReady(s, r)
    else
      && HeadReady(s, choice.value.1) && choice.value.0 == s.runs[choice.value.1].queue[0]
      && forall r :: HeadReady(s, r) ==> choice.value.0 <= s.runs[r].queue[0]
  }

  predicate Drained(runs: map<nat, Run>) { forall r :: r in runs ==> runs[r].queue == [] }

  /** Drops the head of run r, and the run itself if that ends it. */
  function WithoutHead(runs: map<nat, Run>, r: nat): map<nat, Run>
    requires r in runs && runs[r].queue != []
  {
    var rest := runs[r].(queue := runs[r].queue[1..]);
    if Ended(r, rest) then runs - {r} else runs[r := rest]
  }

  function Granted(s: State, id: nat, r: nat): State
    requires r in s.runs && s.runs[r].queue != [] && id < |s.calls|
  {
    var run := s.runs[r];
    var stamped := if run.clock.config.Active() then run.(clock := Clock(run.clock.config, s.now, true)) else run;
    var runs := WithoutHead(s.runs[r := stamped], r);
    s.(origin := Clock(s.origin.config, s.now, true), runs := runs, selected := None,
       running := s.running && !(|runs| == 1 && Drained(runs)),
       calls := s.calls[id := s.calls[id].(granted := true)],
       grants := s.grants + [Grant(id, r, run.clock.config, s.calls[id].width, s.now)])
  }

  /** The decision about the selected head id of run r. late: its context ends between
      pruning and the check before the grant. */
  function Decided(s: State, id: nat, r: nat, late: bool): State
    requires r in s.runs && s.runs[r].queue != [] && id < |s.calls|
  {
    if late then
      s.(runs := WithoutHead(s.runs, r), selected := None, calls := s.calls[id := s.calls[id].(done := true)])
    else if s.origin.Ready(s.calls[id].width, s.now) && s.runs[r].clock.Ready(s.calls[id].width, s.now) then
      Granted(s, id, r)
    else s.(selected := Some((id, r)))
  }

  /** One step of the loop, after pruning. */
  function Scheduled(s: State, choice: Option<(nat, nat)>, late: bool): State {
    var chosen := if s.selected.Some? then s.selected else choice;
    if chosen.None? then
      if Drained(s.runs) && |s.runs| == 1 then s.(running := false) else s
    else
      var (id, r) := chosen.value;
      // The guard holds in every reachable state: a selected call heads its run's queue.
      if id < |s.calls| && r in s.runs && s.runs[r].queue != [] then Decided(s, id, r, late) else s
  }

  ghost predicate Enabled(s: State, step: Step) {
    match step
    case Tick(now) => now >= s.now
    case NewRun(_) => true
    case Enqueue(r, _) => r in s.runs && !s.runs[r].closed
    case ContextEnds(id) => id < |s.calls|
    case WaitReturns(id) => id < |s.calls| && s.calls[id].returned.None? && (s.calls[id].granted || s.calls[id].done)
    case CloseRun(r) => r in s.runs && r != 0
    case Schedule(choice, _) =>
      s.running && (if Pruned(s).selected.Some? then choice.None? else IsChoice(Pruned(s), choice))
  }

  ghost function Next(s: State, step: Step): State
    requires Enabled(s, step)
  {
    match step
    case Tick(now) => s.(now := now)
    case NewRun(config) =>
      s.(runs := s.runs[s.created := Run(Clock(config, 0, false), [], false)], created := s.created + 1)
    case Enqueue(r, width) =>
      s.(runs := s.runs[r := s.runs[r].(queue := s.runs[r].queue + [|s.calls|])], running := true,
         calls := s.calls + [Admission(r, width, false, false, false, None)])
    case ContextEnds(id) => s.(calls := s.calls[id := s.calls[id].(done := true)])
    case WaitReturns(id) =>
      var c := s.calls[id];
      s.(calls := s.calls[id := c.(cancelled := !c.granted, returned := Some(c.granted))])
    case CloseRun(r) =>
      var closed := s.runs[r].(closed := true);
      s.(runs := if Ended(r, closed) then s.runs - {r} else s.runs[r := closed])
    case Schedule(choice, late) => Scheduled(Pruned(s), choice, late)
  }

  ghost function Execute(steps: seq<Step>, config: Config): Option<State>
    decreases |steps|
  {
    if steps == [] then Some(Start(config))
    else
      var last := steps[|steps| - 1];
      var before := Execute(steps[..|steps| - 1], config);
      if before.Some? && Enabled(before.value, last) then Some(Next(before.value, last)) else None
  }
}
