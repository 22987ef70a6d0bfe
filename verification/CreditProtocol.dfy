/** Interleavings of one connection's sender with its read pump, one critical
    section a step. The connection window is an atomic outside every lock, so a
    reservation is two steps (check, then debit) between which the pump can
    raise that window; SETTINGS are published before the delta reaches the
    streams, and the sender can run in between. */
module CreditProtocol {
  import opened Sequences
  import opened FlowControl

  /** Adjusting holds the pump lock, Crediting holds none. */
  datatype Pump = Reading | Crediting(batch: nat, sid: int, n: int) | Adjusting | Failed

  /** Debiting holds the flow lock: the checks passed, the debit is still to come. */
  datatype Sender = Planning | Debiting(needs: seq<int>)

  /** One stream's window with its ledger: the increments received for it and
      the bytes debited from it. */
  datatype Cell = Cell(sid: int, window: int, credits: int, debits: int)

  /** The streams of one batch, the published but unapplied change of the initial
      window, and the sum of the applied shrinks. */
  datatype Batch = Batch(id: nat, cells: seq<Cell>, pending: int, shrunk: int)

  datatype State = State(window: int, credits: int, debits: int, initial: int,
                         batch: Option<Batch>, batches: nat, pump: Pump, sender: Sender)

  datatype Step =
    | SetFlow(ids: seq<int>)
    | ClearFlow
    | Check(needs: seq<int>)
    | Debit
    | ConnectionUpdate(n: int)
    | StreamUpdate(sid: int, n: int)
    | CreditStream
    | PublishSettings(initial: int)
    | AdjustStreams
    | Fail

  const START := State(DEFAULT_WINDOW, 0, 0, DEFAULT_WINDOW, None, 0, Reading, Planning)

  function Windows(cells: seq<Cell>): (w: seq<int>) {
    seq(|cells|, i requires 0 <= i < |cells| => cells[i].window)
  }

  function Ids(cells: seq<Cell>): (w: seq<int>) {
    seq(|cells|, i requires 0 <= i < |cells| => cells[i].sid)
  }

  function Opened(ids: seq<int>, initial: int): (cells: seq<Cell>) {
    seq(|ids|, i requires 0 <= i < |ids| => Cell(ids[i], initial, 0, 0))
  }

  function DebitCells(cells: seq<Cell>, needs: seq<int>): (r: seq<Cell>)
    requires |cells| == |needs|
    ensures Windows(r) == Debited(Windows(cells), needs)
  {
    seq(|cells|, i requires 0 <= i < |cells| =>
        cells[i].(window := cells[i].window - needs[i], debits := cells[i].debits + needs[i]))
  }

  function ShiftCells(cells: seq<Cell>, delta: int): (r: seq<Cell>)
    ensures Windows(r) == Shifted(Windows(cells), delta)
  {
    seq(|cells|, i requires 0 <= i < |cells| => cells[i].(window := cells[i].window + delta))
  }

  /** Crediting, by the pump, the batch that was current when the frame came in. */
  function CreditBatch(b: Batch, sid: int, n: int): (r: Option<Batch>) {
    var i := IndexOf(Ids(b.cells), sid);
    if i == |b.cells| then Some(b)
    else
      var c := b.cells[i];
      if c.window + n > MAX_WINDOW then None
      else Some(b.(cells := b.cells[i := c.(window := c.window + n, credits := c.credits + n)]))
  }

  predicate Enabled(s: State, step: Step) {
    match step
    case SetFlow(ids) => s.batch.None? && !s.pump.Adjusting?
    case ClearFlow => s.batch.Some? && !s.pump.Adjusting? && s.sender.Planning?
    case Check(needs) =>
      && s.batch.Some? && s.sender.Planning?
      && (forall i :: 0 <= i < |needs| ==> needs[i] >= 0)
      && CanReserve(s.window, Windows(s.batch.value.cells), needs)
    case Debit => s.sender.Debiting? && s.batch.Some? && |s.sender.needs| == |s.batch.value.cells|
    case ConnectionUpdate(n) => s.pump.Reading? && 0 <= n <= MAX_WINDOW
    case StreamUpdate(_, n) => s.pump.Reading? && 0 <= n <= MAX_WINDOW
    case CreditStream => s.pump.Crediting? && s.sender.Planning?
    case PublishSettings(initial) => s.pump.Reading? && 0 <= initial <= MAX_WINDOW
    case AdjustStreams => s.pump.Adjusting? && s.sender.Planning?
    case Fail => s.pump.Reading?
  }

  function Next(s: State, step: Step): State
    requires Enabled(s, step)
  {
    match step
    case SetFlow(ids) =>
      s.(batch := Some(Batch(s.batches, Opened(ids, s.initial), 0, 0)), batches := s.batches + 1)
    case ClearFlow => s.(batch := None)
    case Check(needs) => s.(sender := Debiting(needs))
    case Debit =>
      var b, needs := s.batch.value, s.sender.needs;
      s.(window := s.window - Sum(needs), debits := s.debits + Sum(needs), sender := Planning,
         batch := Some(b.(cells := DebitCells(b.cells, needs))))
    case ConnectionUpdate(n) =>
      if s.window + n > MAX_WINDOW then s.(pump := Failed)
      else s.(window := s.window + n, credits := s.credits + n)
    case StreamUpdate(sid, n) =>
      if s.batch.Some? then s.(pump := Crediting(s.batch.value.id, sid, n)) else s
    case CreditStream =>
      // A batch cleared in the meantime still receives the update, unobserved.
      if s.batch.None? || s.batch.value.id != s.pump.batch then s.(pump := Reading)
      else
        var credited := CreditBatch(s.batch.value, s.pump.sid, s.pump.n);
        if credited.None? then s.(pump := Failed) else s.(pump := Reading, batch := credited)
    case PublishSettings(initial) =>
      if s.batch.None? then s.(initial := initial)
      else s.(initial := initial, pump := Adjusting,
              batch := Some(s.batch.value.(pending := initial - s.initial)))
    case AdjustStreams =>
      if s.batch.None? then s.(pump := Reading)
      else
        var b := s.batch.value;
        if !CanShift(Windows(b.cells), b.pending) then s.(pump := Failed)
        else s.(pump := Reading,
                batch := Some(b.(cells := ShiftCells(b.cells, b.pending), pending := 0,
                                 shrunk := b.shrunk + Max(0, -b.pending))))
    case Fail => s.(pump := Failed)
  }

  /** The state after a sequence of steps, each enabled when it is taken. */
  function Execute(steps: seq<Step>): Option<State> {
    if steps == [] then Some(START)
    else
      var last := steps[|steps| - 1];
      match Execute(steps[..|steps| - 1])
      case None => None
      case Some(s) => if Enabled(s, last) then Some(Next(s, last)) else None
  }

  // ------------------------------------------------------------- invariants

  predicate BalancedCell(c: Cell, initial: int, pending: int, shrunk: int) {
    && c.window + pending == initial + c.credits - c.debits
    && IsInt32(c.window)
    && c.credits >= 0 && c.debits >= 0
    && c.window >= -shrunk
  }

  predicate Balanced(b: Batch, initial: int) {
    && b.shrunk >= 0
    && forall i :: 0 <= i < |b.cells| ==> BalancedCell(b.cells[i], initial, b.pending, b.shrunk)
  }

  predicate Inv(s: State) {
    && s.window == DEFAULT_WINDOW + s.credits - s.debits
    && 0 <= s.window <= MAX_WINDOW
    && 0 <= s.initial <= MAX_WINDOW
    && (s.pump.Crediting? ==> s.pump.n >= 0)
    && (s.batch.Some? ==>
          && Balanced(s.batch.value, s.initial)
          && (s.batch.value.pending != 0 ==> s.pump.Adjusting? || s.pump.Failed?))
    && (s.sender.Debiting? ==>
          && s.batch.Some?
          && CanReserve(s.window, Windows(s.batch.value.cells), s.sender.needs)
          && forall i :: 0 <= i < |s.sender.needs| ==> s.sender.needs[i] >= 0)
  }

  lemma DebitKeepsBalance(s: State)
    requires Inv(s) && s.sender.Debiting?
    ensures Inv(Next(s, Debit))
  {
    var b, needs := s.batch.value, s.sender.needs;
    assert s.window - Sum(needs) <= MAX_WINDOW by {
      if |needs| > 0 {
        SumOfNonNegative(needs, 0);
      }
    }
    forall i | 0 <= i < |b.cells|
      ensures BalancedCell(DebitCells(b.cells, needs)[i], s.initial, b.pending, b.shrunk)
    {
      assert BalancedCell(b.cells[i], s.initial, b.pending, b.shrunk);
      assert Windows(b.cells)[i] == b.cells[i].window;
    }
  }

  lemma CreditKeepsBalance(b: Batch, sid: int, n: int, initial: int)
    requires Balanced(b, initial) && n >= 0
    ensures CreditBatch(b, sid, n).Some? ==> Balanced(CreditBatch(b, sid, n).value, initial)
  {
    var i := IndexOf(Ids(b.cells), sid);
    if i < |b.cells| {
      assert BalancedCell(b.cells[i], initial, b.pending, b.shrunk);
    }
  }

  lemma AdjustKeepsBalance(b: Batch, initial: int)
    requires Balanced(b, initial) && CanShift(Windows(b.cells), b.pending)
    ensures Balanced(Batch(b.id, ShiftCells(b.cells, b.pending), 0, b.shrunk + Max(0, -b.pending)), initial)
  {
    forall i | 0 <= i < |b.cells|
      ensures BalancedCell(ShiftCells(b.cells, b.pending)[i], initial, 0, b.shrunk + Max(0, -b.pending))
    {
      assert BalancedCell(b.cells[i], initial, b.pending, b.shrunk);
      assert IsInt32(Windows(b.cells)[i] + b.pending);
    }
  }

  lemma PublishKeepsBalance(b: Batch, initial: int, changed: int)
    requires Balanced(b, initial) && b.pending == 0
    ensures Balanced(b.(pending := changed - initial), changed)
  {
    forall i | 0 <= i < |b.cells|
      ensures BalancedCell(b.cells[i], changed, changed - initial, b.shrunk)
    {
      assert BalancedCell(b.cells[i], initial, b.pending, b.shrunk);
    }
  }

  /** Every step of either side keeps the ledger. */
  lemma StepKeepsLedger(s: State, step: Step)
    requires Inv(s) && Enabled(s, step)
    ensures Inv(Next(s, step))
  {
    match step
    case Debit => DebitKeepsBalance(s);
    case CreditStream =>
      if s.batch.Some? {
        CreditKeepsBalance(s.batch.value, s.pump.sid, s.pump.n, s.initial);
      }
    case AdjustStreams =>
      if s.batch.Some? && CanShift(Windows(s.batch.value.cells), s.batch.value.pending) {
        AdjustKeepsBalance(s.batch.value, s.initial);
      }
    case PublishSettings(changed) =>
      if s.batch.Some? {
        PublishKeepsBalance(s.batch.value, s.initial, changed);
        assert s.sender.Debiting? ==> CanReserve(s.window, Windows(s.batch.value.cells), s.sender.needs);
      }
    case _ =>
  }

  // --------------------------------------------------------- the main results

  /** In every interleaving the connection window is 65535 plus its updates minus
      every debited byte and never negative; each stream window is the peer's
      current initial window plus its updates minus its debits, a SETTINGS change
      being counted once: in the starting value, as the pending delta, or applied. */
  lemma {:induction false} WindowsMatchTheLedger(steps: seq<Step>)
    requires Execute(steps).Some?
    ensures Inv(Execute(steps).value)
  {
    if steps != [] {
      var before := steps[..|steps| - 1];
      WindowsMatchTheLedger(before);
      StepKeepsLedger(Execute(before).value, steps[|steps| - 1]);
    }
  }

  /** While the pump is not between publishing and applying a SETTINGS frame, the
      stream ledger is exact. */
  lemma QuiescentWindows(steps: seq<Step>, i: nat)
    requires Execute(steps).Some?
    requires var s := Execute(steps).value;
             (s.pump.Reading? || s.pump.Crediting?) && s.batch.Some? && i < |s.batch.value.cells|
    ensures var s := Execute(steps).value;
            var c := s.batch.value.cells[i];
            c.window == s.initial + c.credits - c.debits
  {
    WindowsMatchTheLedger(steps);
    var s := Execute(steps).value;
    assert BalancedCell(s.batch.value.cells[i], s.initial, s.batch.value.pending, s.batch.value.shrunk);
  }

  /** A stream window falls below zero in no step but the application of a
      SETTINGS shrink. */
  lemma OnlyShrinkGoesNegative(steps: seq<Step>, step: Step, i: nat)
    requires Execute(steps + [step]).Some?
    requires Execute(steps).Some? && Execute(steps).value.batch.Some? && Execute(steps + [step]).value.batch.Some?
    requires var b := Execute(steps).value.batch.value;
             var c := Execute(steps + [step]).value.batch.value;
             i < |b.cells| && i < |c.cells| && b.cells[i].window >= 0 && c.cells[i].window < 0
    ensures step.AdjustStreams? && Execute(steps).value.batch.value.pending < 0
  {
    assert (steps + [step])[..|steps|] == steps;
    var s := Execute(steps).value;
    WindowsMatchTheLedger(steps);
    assert Next(s, step) == Execute(steps + [step]).value;
  }

  /** Section 6.9.1 of RFC 9113: a debit never takes more than the stream and the
      connection had, although both windows may have moved since the check. */
  lemma NeverOversends(steps: seq<Step>)
    requires Execute(steps).Some? && Execute(steps).value.sender.Debiting?
    ensures var s := Execute(steps).value;
            && s.batch.Some? && Enabled(s, Debit)
            && Next(s, Debit).window >= 0
            && forall i :: 0 <= i < |s.sender.needs| && s.sender.needs[i] > 0 ==>
                 Next(s, Debit).batch.value.cells[i].window >= 0
  {
    WindowsMatchTheLedger(steps);
    var s := Execute(steps).value;
    forall i | 0 <= i < |s.sender.needs| && s.sender.needs[i] > 0
      ensures Next(s, Debit).batch.value.cells[i].window >= 0
    {
      assert Windows(s.batch.value.cells)[i] == s.batch.value.cells[i].window;
    }
  }
}
