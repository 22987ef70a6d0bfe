/** The write lock of one connection: batch-release records and control frames share
    one buffer, and a flush turns the buffer into one TLS record. */
module RecordWriter {
  import opened Sequences
  import Planner

  const BUDGET := Planner.RECORD_BUDGET

  /** A frame in the buffer; record numbers identify the begin call it belongs to. */
  datatype Frame = Control(bytes: nat) | Data(record: nat, bytes: nat)

  datatype Lock = Free | HeldByRecord(record: nat) | HeldByControl

  /** wire holds the completed flushes, torn what a failing flush may have let
      through, log every frame ever written and begun the number of begun records. */
  datatype State = State(lock: Lock, broken: bool, readFailed: bool, buffer: seq<Frame>,
                         wire: seq<seq<Frame>>, torn: seq<Frame>, log: seq<Frame>, begun: nat)

  datatype Step =
    | BeginRecord
    | WriteData(bytes: nat)
    | FlushRecord(ok: bool, through: nat)
    | CloseRecord
    | BeginControl
    | WriteControl(bytes: nat, ok: bool)
    | FlushControl(ok: bool, through: nat)
    | ReadFails

  const START := State(Free, false, false, [], [], [], [], 0)

  function Buffered(buffer: seq<Frame>): int {
    if buffer == [] then 0 else Buffered(buffer[..|buffer| - 1]) + buffer[|buffer| - 1].bytes
  }

  predicate Enabled(s: State, step: Step) {
    match step
    case BeginRecord => s.lock.Free?
    case WriteData(_) => s.lock.HeldByRecord?
    case FlushRecord(_, through) => s.lock.HeldByRecord? && through <= |s.buffer|
    case CloseRecord => s.lock.HeldByRecord?
    case BeginControl => s.lock.Free?
    case WriteControl(_, _) => s.lock.HeldByControl?
    case FlushControl(_, through) => s.lock.HeldByControl? && through <= |s.buffer|
    case ReadFails => true
  }

  /** A flush either empties the buffer into one record, or breaks the connection. */
  function Flush(s: State, ok: bool, through: nat): State
    requires through <= |s.buffer|
  {
    if ok then s.(lock := Free, buffer := [], wire := s.wire + [s.buffer])
    else s.(lock := Free, broken := true, torn := s.torn + s.buffer[..through])
  }

  function Write(s: State, f: Frame): State { s.(buffer := s.buffer + [f], log := s.log + [f]) }

  function Next(s: State, step: Step): State
    requires Enabled(s, step)
  {
    match step
    case BeginRecord =>
      if s.broken || s.readFailed then s else s.(lock := HeldByRecord(s.begun), begun := s.begun + 1)
    case WriteData(bytes) => Write(s, Data(s.lock.record, bytes))
    case FlushRecord(ok, through) =>
      if Buffered(s.buffer) > BUDGET then s.(lock := Free, broken := true) else Flush(s, ok, through)
    case CloseRecord => s.(lock := Free, broken := true)
    case BeginControl => if s.broken || s.readFailed then s else s.(lock := HeldByControl)
    case WriteControl(bytes, ok) => if ok then Write(s, Control(bytes)) else s.(lock := Free, broken := true)
    case FlushControl(ok, through) => Flush(s, ok, through)
    case ReadFails => s.(readFailed := true)
  }

  function Execute(steps: seq<Step>, from: State): Option<State>
    decreases |steps|
  {
    if steps == [] then Some(from)
    else
      var last := steps[|steps| - 1];
      var before := Execute(steps[..|steps| - 1], from);
      if before.Some? && Enabled(before.value, last) then Some(Next(before.value, last)) else None
  }

  // ------------------------------------------------------------------ invariant

  /** All frames of record r that were ever written, in order. */
  function FramesOf(log: seq<Frame>, r: nat): seq<Frame> {
    if log == [] then []
    else
      var f := log[|log| - 1];
      FramesOf(log[..|log| - 1], r) + if f.Data? && f.record == r then [f] else []
  }

  lemma FramesOfAppend(log: seq<Frame>, f: Frame, r: nat)
    ensures FramesOf(log + [f], r) == FramesOf(log, r) + if f.Data? && f.record == r then [f] else []
  {
    assert (log + [f])[..|log|] == log;
  }

  predicate OnlyControl(flush: seq<Frame>) { forall f <- flush :: f.Control? }

  /** The flush is everything that was ever written for record r, within one TLS
      record. */
  predicate IsRecord(flush: seq<Frame>, log: seq<Frame>, r: nat) {
    flush == FramesOf(log, r) && (forall f <- flush :: f.Data? && f.record == r) && Buffered(flush) <= BUDGET
  }

  ghost predicate WholeFlush(flush: seq<Frame>, s: State) {
    || OnlyControl(flush)
    || exists r: nat :: r < s.begun && s.lock != HeldByRecord(r) && IsRecord(flush, s.log, r)
  }

  ghost predicate Inv(s: State) {
    && (s.lock.Free? && !s.broken ==> s.buffer == [])
    && (s.lock.HeldByRecord? ==>
          && !s.broken && s.lock.record < s.begun
          && s.buffer == FramesOf(s.log, s.lock.record)
          && forall f <- s.buffer :: f.Data? && f.record == s.lock.record)
    && (s.lock.HeldByControl? ==> !s.broken && OnlyControl(s.buffer))
    && (forall flush <- s.wire :: WholeFlush(flush, s))
    && (forall r: nat :: r >= s.begun ==> FramesOf(s.log, r) == [])
    && (!s.broken ==> s.torn == [])
  }

  lemma WriteKeepsFlushes(s: State, f: Frame, flush: seq<Frame>)
    requires WholeFlush(flush, s) && (f.Data? ==> s.lock == HeldByRecord(f.record))
    ensures WholeFlush(flush, Write(s, f))
  {
    if !OnlyControl(flush) {
      var r: nat :| r < s.begun && s.lock != HeldByRecord(r) && IsRecord(flush, s.log, r);
      FramesOfAppend(s.log, f, r);
      assert FramesOf(s.log, r) + [] == FramesOf(s.log, r);
      assert IsRecord(flush, Write(s, f).log, r);
    }
  }

  lemma WriteKeepsInv(s: State, f: Frame)
    requires Inv(s) && !s.lock.Free?
    requires f.Data? <==> s.lock.HeldByRecord?
    requires f.Data? ==> f.record == s.lock.record
    ensures Inv(Write(s, f))
  {
    forall flush | flush in s.wire
      ensures WholeFlush(flush, Write(s, f))
    {
      WriteKeepsFlushes(s, f, flush);
    }
    forall r: nat
      ensures FramesOf(Write(s, f).log, r) == FramesOf(s.log, r) + if f.Data? && f.record == r then [f] else []
    {
      FramesOfAppend(s.log, f, r);
    }
  }

  /** Steps that write no frame and leave no smaller set of finished records. */
  lemma UnlockKeepsFlushes(s: State, t: State)
    requires Inv(s) && t.log == s.log && t.begun >= s.begun
    requires t.lock.HeldByRecord? ==> t.lock.record >= s.begun || t.lock == s.lock
    ensures forall flush <- s.wire :: WholeFlush(flush, t)
  {
    forall flush | flush in s.wire
      ensures WholeFlush(flush, t)
    {
      assert WholeFlush(flush, s);
      if !OnlyControl(flush) {
        var r: nat :| r < s.begun && s.lock != HeldByRecord(r) && IsRecord(flush, s.log, r);
        assert r < t.begun && t.lock != HeldByRecord(r) && IsRecord(flush, t.log, r);
      }
    }
  }

  lemma StepKeepsInv(s: State, step: Step)
    requires Inv(s) && Enabled(s, step)
    ensures Inv(Next(s, step))
  {
    var t := Next(s, step);
    match step
    case WriteData(bytes) => WriteKeepsInv(s, Data(s.lock.record, bytes));
    case WriteControl(bytes, ok) =>
      if ok {
        WriteKeepsInv(s, Control(bytes));
      } else {
        UnlockKeepsFlushes(s, t);
      }
    case FlushRecord(ok, _) =>
      UnlockKeepsFlushes(s, t);
      if ok && Buffered(s.buffer) <= BUDGET {
        assert IsRecord(s.buffer, t.log, s.lock.record);
        assert WholeFlush(s.buffer, t);
      }
    case FlushControl(ok, _) =>
      UnlockKeepsFlushes(s, t);
      assert ok ==> WholeFlush(s.buffer, t);
    case _ => UnlockKeepsFlushes(s, t);
  }

  // --------------------------------------------------------- the main results

  /** In every interleaving each completed flush holds only control frames or one
      whole record, and the buffer is empty while the lock is free and the
      connection unbroken. */
  lemma {:induction false} FlushesAreWhole(steps: seq<Step>)
    requires Execute(steps, START).Some?
    ensures Inv(Execute(steps, START).value)
  {
    if steps != [] {
      var before := steps[..|steps| - 1];
      FlushesAreWhole(before);
      StepKeepsInv(Execute(before, START).value, steps[|steps| - 1]);
    }
  }

  lemma {:induction false} BrokenIsSilent(steps: seq<Step>, s: State)
    requires s.broken && s.lock.Free? && Execute(steps, s).Some?
    ensures var t := Execute(steps, s).value;
            t.broken && t.lock.Free? && t.wire == s.wire && t.torn == s.torn
  {
    if steps != [] {
      BrokenIsSilent(steps[..|steps| - 1], s);
    }
  }

  /** Once a record is abandoned between its begin and its flush, nothing is ever
      flushed again on either path. */
  lemma AbandonedRecordSilences(before: seq<Step>, after: seq<Step>)
    requires Execute(before, START).Some?
    requires Execute(before, START).value.lock.HeldByRecord?
    requires Execute(after, Next(Execute(before, START).value, CloseRecord)).Some?
    ensures var s := Execute(before, START).value;
            var t := Execute(after, Next(s, CloseRecord)).value;
            t.broken && t.wire == s.wire && t.torn == s.torn
  {
    BrokenIsSilent(after, Next(Execute(before, START).value, CloseRecord));
  }

  // ------------------------------------------------------ the locked operations

  /** The write side of a connection. I/O results are inputs: whether a write or
      flush succeeds, and how many frames a failing flush let through. */
  class WriteSide {
    var lock: Lock
    var broken: bool
    var readFailed: bool
    var buffer: seq<Frame>
    ghost var wire: seq<seq<Frame>>
    ghost var torn: seq<Frame>
    ghost var log: seq<Frame>
    var begun: nat

    constructor ()
      ensures View() == START
    {
      lock, broken, readFailed, buffer := Free, false, false, [];
      wire, torn, log, begun := [], [], [], 0;
    }

    ghost function View(): State
      reads this
    {
      State(lock, broken, readFailed, buffer, wire, torn, log, begun)
    }

    method FlushBuffer(ok: bool, ghost through: nat)
      requires through <= |buffer|
      modifies this
      ensures View() == Flush(old(View()), ok, through)
    {
      if ok {
        wire := wire + [buffer];
        buffer := [];
      } else {
        torn := torn + buffer[..through];
        broken := true;
      }
      lock := Free;
    }

    /** One control frame, written and flushed under the lock. */
    method SendControl(bytes: nat, written: bool, flushed: bool, ghost through: nat) returns (ok: bool)
      requires lock.Free? && Inv(View()) && through <= 1
      modifies this
      ensures Inv(View())
      ensures ok == (!old(broken) && !old(readFailed) && written && flushed)
      ensures ok ==> wire == old(wire) + [[Control(bytes)]]
      ensures !ok ==> wire == old(wire) && (broken || (View() == old(View())))
    {
      StepKeepsInv(View(), BeginControl);
      if broken || readFailed {
        return false;
      }
      lock := HeldByControl;
      StepKeepsInv(View(), WriteControl(bytes, written));
      if !written {
        broken, lock := true, Free;
        return false;
      }
      log := log + [Control(bytes)];
      buffer := buffer + [Control(bytes)];
      assert buffer == [Control(bytes)];
      StepKeepsInv(View(), FlushControl(flushed, through));
      FlushBuffer(flushed, through);
      return flushed;
    }
  }

  /** Holds the lock from the first frame of a record through its flush. */
  class Writer {
    const c: WriteSide
    var held: bool

    constructor (c: WriteSide)
      ensures this.c == c && !held
    {
      this.c := c;
      held := false;
    }

    ghost predicate Valid()
      reads this, c
    {
      Inv(c.View()) && (if held then c.lock.HeldByRecord? else c.lock.Free?)
    }

    method Begin() returns (ok: bool)
      requires Valid()
      modifies this, c
      ensures Valid() && ok == held
      ensures if old(held) then ok && c.View() == old(c.View()) else c.View() == Next(old(c.View()), BeginRecord)
    {
      if held {
        return true;
      }
      StepKeepsInv(c.View(), BeginRecord);
      if c.broken || c.readFailed {
        return false;
      }
      c.lock := HeldByRecord(c.begun);
      c.begun := c.begun + 1;
      held := true;
      return true;
    }

    method WriteFrame(bytes: nat)
      requires Valid() && held
      modifies c
      ensures Valid() && c.View() == Next(old(c.View()), WriteData(bytes))
    {
      StepKeepsInv(c.View(), WriteData(bytes));
      var f := Data(c.lock.record, bytes);
      c.log := c.log + [f];
      c.buffer := c.buffer + [f];
    }

    /** Flushes the record begun by this writer, beginning an empty one if needed. */
    method Flush(io: bool, ghost through: nat) returns (ok: bool)
      requires Valid() && through <= |c.buffer|
      modifies this, c
      ensures Valid() && !held
      ensures old(held) ==> c.View() == Next(old(c.View()), FlushRecord(io, through))
      ensures ok <==> (old(held) || (!old(c.broken) && !old(c.readFailed))) && io && Buffered(old(c.buffer)) <= BUDGET
      ensures ok ==> c.wire == old(c.wire) + [old(c.buffer)] && c.buffer == []
    {
      var begun := Begin();
      if !begun {
        return false;
      }
      StepKeepsInv(c.View(), FlushRecord(io, through));
      held := false;
      if Buffered(c.buffer) > BUDGET {
        c.broken, c.lock := true, Free;
        return false;
      }
      c.FlushBuffer(io, through);
      return io;
    }

    /** Leaving with an open record breaks the write side for good. */
    method Close()
      requires Valid()
      modifies this, c
      ensures Valid() && !held
      ensures c.View() == if old(held) then Next(old(c.View()), CloseRecord) else old(c.View())
    {
      if !held {
        return;
      }
      StepKeepsInv(c.View(), CloseRecord);
      c.broken, c.lock, held := true, Free, false;
    }
  }
}
