/** One trial worker: it holds a pooled connection, primes it when fresh, and replaces
    it when it dies. */
module TrialWorker {

  /** What a batch on a connection came to. keep: the connection survived; local: this
      side ended the batch; released: the shared header record was flushed. */
  datatype Attempt = Delivered | Failed(keep: bool, local: bool, released: bool) | BadPadding

  /** The surroundings at one moment of a run: whether a connection can be had, and
      from the idle pool; how the batch ends; whether the run is stopping or cancelled
      and whether the consumer accepts a trial; and how many connection numbers other
      workers have drawn meanwhile. */
  datatype Fate = Fate(available: bool, pooled: bool, attempt: Attempt, stopping: bool, cancelled: bool,
  accepted: bool, others: nat)

  /** released and stale describe a measured batch: headers flushed; pooled connection
      that died before proving itself live. */
  datatype Event = Acquired(conn: nat) | Primed(conn: nat) | Measured(conn: nat, released: bool, stale: bool)

  function Primes(log: seq<Event>, conn: nat): nat {
    if log == [] then 0 else Primes(log[..|log| - 1], conn) + if log[|log| - 1] == Primed(conn) then 1 else 0
  }

  function Acquisitions(log: seq<Event>): nat {
    if log == [] then 0 else Acquisitions(log[..|log| - 1]) + if log[|log| - 1].Acquired? then 1 else 0
  }

  function StaleLosses(log: seq<Event>): nat {
    if log == [] then 0
    else StaleLosses(log[..|log| - 1]) + if log[|log| - 1].Measured? && log[|log| - 1].stale then 1 else 0
  }

  /** Every measured batch ran on a connection with exactly this many priming attempts
      before it. */
  ghost predicate PrimedFirst(log: seq<Event>, warmup: nat) {
    forall k :: 0 <= k < |log| && log[k].Measured? ==> Primes(log[..k], log[k].conn) == warmup
  }

  ghost predicate ConnsBelow(log: seq<Event>, next: nat) { forall k :: 0 <= k < |log| ==> log[k].conn < next }

  lemma Appended(log: seq<Event>, e: Event, warmup: nat)
    requires PrimedFirst(log, warmup) && (e.Measured? ==> Primes(log, e.conn) == warmup)
    ensures PrimedFirst(log + [e], warmup)
    ensures forall c: nat :: Primes(log + [e], c) == Primes(log, c) + if e == Primed(c) then 1 else 0
  {
    var after := log + [e];
    assert after[..|log|] == log;
    forall k | 0 <= k < |after| && after[k].Measured?
      ensures Primes(after[..k], after[k].conn) == warmup
    {
      assert after[..k] == log[..k];
    }
  }

  lemma {:induction false} NoPrimesYet(log: seq<Event>, conn: nat)
    requires ConnsBelow(log, conn)
    ensures Primes(log, conn) == 0
  {
    if log != [] {
      NoPrimesYet(log[..|log| - 1], conn);
      assert log[|log| - 1].conn < conn;
    }
  }

  /** Priming takes no connection and measures nothing. */
  ghost predicate SameTotals(before: seq<Event>, after: seq<Event>) {
    && |before| <= |after| && before == after[..|before|]
    && Acquisitions(after) == Acquisitions(before) && StaleLosses(after) == StaleLosses(before)
    && forall k :: |before| <= k < |after| ==> after[k].Primed?
  }

  lemma SameTotalsStep(start: seq<Event>, before: seq<Event>, after: seq<Event>)
    requires SameTotals(start, before)
    requires after == before || (|after| == |before| + 1 && after[|before|].Primed? && before == after[..|before|])
    ensures SameTotals(start, after)
  {
  }

  /** A measured batch that is sent again had not released its headers, or ran on a
      stale connection. */
  ghost predicate RepeatedOnlyIfSafe(log: seq<Event>, from: nat, to: int) {
    forall k :: from <= k < to && k < |log| && log[k].Measured? ==> !log[k].released || log[k].stale
  }

  /** The connections taken since start, with one held before if had, are the one held
      now if has, the counted replacements and the stale losses. */
  ghost predicate Account(start: seq<Event>, had: bool, log: seq<Event>, has: bool, replaced: nat) {
    && |start| <= |log| && start == log[..|start|]
    && Acquisitions(log) - Acquisitions(start) + (if had then 1 else 0) ==
       (if has then 1 else 0) + replaced + StaleLosses(log) - StaleLosses(start)
    && RepeatedOnlyIfSafe(log, |start|, |log|)
  }

  /** A finished trial: at most one replacement besides stale losses, and no unsafe
      repetition. */
  ghost predicate Concluded(start: seq<Event>, had: bool, log: seq<Event>) {
    && |start| <= |log| && start == log[..|start|]
    && Acquisitions(log) - Acquisitions(start) <= (if had then 1 else 2) + StaleLosses(log) - StaleLosses(start)
    && RepeatedOnlyIfSafe(log, |start|, |log| - 1)
  }

  lemma AccountConcludes(start: seq<Event>, had: bool, log: seq<Event>, has: bool, replaced: nat)
    requires Account(start, had, log, has, replaced) && replaced + (if has then 1 else 0) <= 2
    ensures Concluded(start, had, log)
  {
  }

  lemma AcquireAccounts(start: seq<Event>, had: bool, log: seq<Event>, replaced: nat, conn: nat)
    requires Account(start, had, log, false, replaced)
    ensures Account(start, had, log + [Acquired(conn)], true, replaced)
  {
    assert (log + [Acquired(conn)])[..|log|] == log;
  }

  lemma WarmAccounts(start: seq<Event>, had: bool, log: seq<Event>, after: seq<Event>, replaced: nat)
    requires Account(start, had, log, true, replaced) && SameTotals(log, after)
    ensures Account(start, had, after, true, replaced) && Account(start, had, after, false, replaced + 1)
  {
    forall k | |start| <= k < |log|
      ensures after[k] == log[k]
    {
      assert log == after[..|log|];
    }
    assert start == after[..|start|];
  }

  lemma MeasureAccounts(start: seq<Event>, had: bool, log: seq<Event>, e: Event, replaced: nat)
    requires Account(start, had, log, true, replaced) && e.Measured? && replaced <= 1
    ensures e.stale ==> Account(start, had, log + [e], false, replaced)
    ensures !e.stale && !e.released ==> Account(start, had, log + [e], false, replaced + 1)
    ensures Concluded(start, had, log + [e])
  {
    var after := log + [e];
    assert after[..|log|] == log;
    assert start == after[..|start|];
    assert forall k :: 0 <= k < |log| ==> after[k] == log[k];
  }

  /** What a measured batch does to the account. */
  lemma MeasureOutcome(start: seq<Event>, had: bool, before: seq<Event>, log: seq<Event>, replaced: nat)
    requires Account(start, had, before, true, replaced) && replaced <= 1
    requires |log| == |before| + 1 && before == log[..|before|] && log[|before|].Measured?
    ensures var e := log[|before|];
            && Concluded(start, had, log)
            && (e.stale ==> Account(start, had, log, false, replaced))
            && (!e.stale && !e.released ==> Account(start, had, log, false, replaced + 1))
            && (!e.stale ==> Deaths(start, had, log, true) <= 1 && Deaths(start, had, log, false) <= 2)
  {
    var e := log[|before|];
    assert log == before + [e];
    MeasureAccounts(start, had, before, e, replaced);
  }

  /** What one round of a trial came to; counted: a connection died on it. */
  datatype Turn = Again(counted: bool) | Done(outcome: Outcome)

  /** No other connection repairs this. */
  predicate Fatal(f: Fate) { f.attempt.BadPadding? || f.cancelled || !f.accepted }

  /** The fates that were met. */
  function Met(script: seq<Fate>, rest: seq<Fate>): seq<Fate> {
    if |rest| <= |script| then script[..|script| - |rest|] else []
  }

  predicate MetFatal(script: seq<Fate>, rest: seq<Fate>) { exists f <- Met(script, rest) :: Fatal(f) }

  lemma LastMet(script: seq<Fate>, rest: seq<Fate>)
    requires |rest| < |script| && Fatal(script[|script| - |rest| - 1])
    ensures MetFatal(script, rest)
  {
    assert Met(script, rest)[|script| - |rest| - 1] in Met(script, rest);
  }

  /** The fate that decided a round begun with fate f: the last one met. */
  function Latest(f: Fate, script: seq<Fate>, rest: seq<Fate>): Fate {
    if |rest| < |script| then script[|script| - |rest| - 1] else f
  }

  /** A measured batch that is not sent again, under the fate it met: it was not lost on a
      stale connection, and its headers were released unless it failed with the connection
      still held or in a cancelled run. */
  predicate Settled(e: Event, f: Fate, held: bool) {
    && e.Measured? && !e.stale && !f.attempt.BadPadding?
    && (held <==> f.attempt.Failed? ==> f.attempt.keep)
    && (e.released <==> f.attempt.Failed? ==> f.attempt.released)
    && (e.released || held || f.cancelled)
  }

  /** What justifies the outcome of a trial: deaths counts the connections lost other than
      as stale. Only fates that were met count. */
  ghost predicate Justified(outcome: Outcome, start: seq<Event>, log: seq<Event>, deaths: int, held: bool,
                            script: seq<Fate>, rest: seq<Fate>) {
    match outcome
    case Completed =>
      && |log| > |start| && deaths <= (if held then 1 else 2)
      && |rest| < |script| && Settled(log[|log| - 1], script[|script| - |rest| - 1], held)
    case BadRequest => deaths <= 1 && exists f <- Met(script, rest) :: f.attempt.BadPadding?
    case RunStopped => deaths <= 1 && exists f <- Met(script, rest) :: f.stopping
    case Terminal => deaths == 2 || (deaths <= 2 && exists f <- Met(script, rest) :: !f.available || Fatal(f))
    case Unfinished => deaths <= 1 && rest == [] && |log| - |start| >= |script|
  }

  /** The same for one round that began with fate f. */
  ghost predicate Reasoned(outcome: Outcome, start: seq<Event>, had: bool, log: seq<Event>, has: bool, f: Fate,
                           script: seq<Fate>, rest: seq<Fate>) {
    var deaths := Deaths(start, had, log, has);
    match outcome
    case Completed =>
      |log| > |start| && deaths <= (if has then 1 else 2) && Settled(log[|log| - 1], Latest(f, script, rest), has)
    case BadRequest => deaths <= 1 && Latest(f, script, rest).attempt.BadPadding?
    case RunStopped => deaths <= 1 && f.stopping
    case Terminal => deaths <= 2 && (!f.available || MetFatal(script, rest))
    case Unfinished => deaths <= 1 && rest == []
  }

  /** What a measured batch came to, from the log before it, under fate f. */
  ghost predicate MeasuredTurn(turn: Turn, start: seq<Event>, had: bool, replaced: nat, before: seq<Event>,
                               log: seq<Event>, has: bool, f: Fate)
  {
    match turn
    case Again(counted) =>
      !has && Account(start, had, log, false, replaced + if counted then 1 else 0) && |log| == |before| + 1
    case Done(Completed) =>
      && Concluded(start, had, log) && |log| > |start| && Deaths(start, had, log, has) <= (if has then 1 else 2)
      && Settled(log[|log| - 1], f, has)
    case Done(BadRequest) => Concluded(start, had, log) && f.attempt.BadPadding? && Deaths(start, had, log, has) <= 1
    case Done(_) => false
  }

  /** What one round came to, from the log before it: every fate used up is logged if
      the trial goes on. */
  ghost predicate Rounded(turn: Turn, start: seq<Event>, had: bool, replaced: nat, before: seq<Event>,
                          log: seq<Event>, has: bool, f: Fate, script: seq<Fate>, rest: seq<Fate>)
  {
    && |rest| <= |script| && rest == script[|script| - |rest|..]
    && match turn
       case Again(counted) =>
         && !has && Account(start, had, log, false, replaced + if counted then 1 else 0)
         && |log| - |before| >= |script| + 1 - |rest|
       case Done(outcome) =>
         && Concluded(start, had, log) && Reasoned(outcome, start, had, log, has, f, script, rest)
         && (outcome.Unfinished? ==> |log| - |before| >= |script| + 1)
  }

  /** What priming came to, from the log before it; Done(Completed) means that the
      connection is ready. */
  ghost predicate PrimedTurn(turn: Turn, start: seq<Event>, had: bool, replaced: nat, before: seq<Event>,
                             log: seq<Event>, has: bool, script: seq<Fate>, rest: seq<Fate>)
  {
    match turn
    case Again(counted) =>
      && counted && !has && Account(start, had, log, false, replaced + 1)
      && |log| - |before| == |script| - |rest|
    case Done(Completed) => has && Account(start, had, log, true, replaced) && |log| - |before| == |script| - |rest|
    case Done(Terminal) => Concluded(start, had, log) && Deaths(start, had, log, has) <= 2 && MetFatal(script, rest)
    case Done(Unfinished) =>
      && Concluded(start, had, log) && Deaths(start, had, log, has) <= 1 && rest == []
      && |log| - |before| == |script|
    case Done(_) => false
  }

  lemma PrimeRounds(turn: Turn, start: seq<Event>, had: bool, replaced: nat, before: seq<Event>, taken: seq<Event>,
                    log: seq<Event>, has: bool, f: Fate, script: seq<Fate>, rest: seq<Fate>)
    requires |rest| <= |script| && rest == script[|script| - |rest|..] && turn != Done(Completed)
    requires |taken| == |before| + 1 && PrimedTurn(turn, start, had, replaced, taken, log, has, script, rest)
    ensures Rounded(turn, start, had, replaced, before, log, has, f, script, rest)
  {
  }

  lemma MeasureRounds(turn: Turn, start: seq<Event>, had: bool, replaced: nat, before: seq<Event>, ready: seq<Event>,
                      log: seq<Event>, has: bool, f: Fate, g: Fate, script: seq<Fate>, rest: seq<Fate>)
    requires |rest| <= |script| && rest == script[|script| - |rest|..] && g == Latest(f, script, rest)
    requires |ready| - |before| >= |script| - |rest|
    requires MeasuredTurn(turn, start, had, replaced, ready, log, has, g)
    ensures Rounded(turn, start, had, replaced, before, log, has, f, script, rest)
  {
  }

  lemma CutOff(start: seq<Event>, had: bool, replaced: nat, before: seq<Event>, log: seq<Event>, f: Fate,
               script: seq<Fate>)
    requires Account(start, had, log, true, replaced) && replaced <= 1 && |log| - |before| >= |script| + 1
    ensures Rounded(Done(Unfinished), start, had, replaced, before, log, true, f, script, [])
  {
    AccountConcludes(start, had, log, true, replaced);
  }

  lemma ReasonedIsJustified(outcome: Outcome, start: seq<Event>, had: bool, log: seq<Event>, has: bool,
                            whole: seq<Fate>, script: seq<Fate>, rest: seq<Fate>)
    requires script != [] && |script| <= |whole| && script == whole[|whole| - |script|..]
    requires |rest| < |script| && Reasoned(outcome, start, had, log, has, script[0], script[1..], rest)
    requires outcome == Unfinished ==> |log| - |start| >= |whole|
    ensures Justified(outcome, start, log, Deaths(start, had, log, has), has, whole, rest)
  {
    var skip, met := |whole| - |script|, Met(whole, rest);
    assert met[skip] == script[0];
    assert Latest(script[0], script[1..], rest) == met[|met| - 1];
    forall g | g in Met(script[1..], rest)
      ensures g in met
    {
      var k :| 0 <= k < |script| - 1 - |rest| && script[1..][k] == g;
      assert met[skip + 1 + k] == g;
    }
  }

  lemma SecondDeath(start: seq<Event>, had: bool, log: seq<Event>, script: seq<Fate>, rest: seq<Fate>)
    requires Account(start, had, log, false, 2)
    ensures Concluded(start, had, log) &&
            Justified(Terminal, start, log, Deaths(start, had, log, false), false, script, rest)
  {
    AccountConcludes(start, had, log, false, 2);
  }

  /** The connections lost since start other than as stale. */
  function Deaths(start: seq<Event>, had: bool, log: seq<Event>, has: bool): int {
    Acquisitions(log) - Acquisitions(start) + (if had then 1 else 0) - (if has then 1 else 0)
    - (StaleLosses(log) - StaleLosses(start))
  }

  datatype Warmed = Hot | Died | Unrepairable | Interrupted | Unobserved

  /** Completed: the batch was sent, with or without an error of its own. BadRequest: its
      padding cannot be built. Terminal: the run must end. Unfinished: the observed part
      of the run ends here. */
  datatype Outcome = Completed | BadRequest | RunStopped | Terminal | Unfinished

  class Worker {
    const warmup: nat
    var held: bool
    var reused: bool
    var conn: nat
    var nextId: nat
    ghost var log: seq<Event>

    ghost predicate Valid()
      reads this
    {
      && PrimedFirst(log, warmup) && ConnsBelow(log, nextId) && (held ==> conn < nextId)
      && (warmup > 0 ==> StaleLosses(log) == 0)
    }

    ghost predicate Ready()
      reads this
    {
      Valid() && (held ==> Primes(log, conn) == warmup && (warmup > 0 ==> !reused))
    }

    constructor (warmup: nat, nextId: nat)
      ensures Ready() && !held && this.warmup == warmup && log == []
    {
      this.warmup := warmup;
      this.nextId := nextId;
      held, reused, conn, log := false, false, 0, [];
    }

    /** Takes a connection unless one is held; a fresh one gets a number of its own. */
    method Acquire(f: Fate) returns (cold: bool, ok: bool)
      requires Valid()
      modifies this
      ensures Valid() && (ok <==> old(held) || f.available) && (cold <==> ok && !old(held))
      ensures ok ==> held
      ensures !cold ==> log == old(log) && held == old(held) && conn == old(conn) && reused == old(reused)
      ensures cold ==> conn >= old(nextId) && log == old(log) + [Acquired(conn)] && Primes(log, conn) == 0
    {
      if held {
        return false, true;
      }
      if !f.available {
        return false, false;
      }
      NoPrimesYet(log, nextId + f.others);
      conn := nextId + f.others;
      nextId := conn + 1;
      held, reused := true, f.pooled;
      Appended(log, Acquired(conn), warmup);
      log := log + [Acquired(conn)];
      return true, true;
    }

    /** Runs one batch on the held connection. stale: a pooled connection died before
        proving itself live. */
    method Send(measured: bool, f: Fate) returns (failed: bool, stale: bool)
      requires Valid() && held && (measured ==> Primes(log, conn) == warmup && (warmup > 0 ==> !reused))
      modifies this
      ensures Valid() && conn == old(conn)
      ensures failed <==> !f.attempt.Delivered?
      ensures held <==> f.attempt.Delivered? || f.attempt.BadPadding? || f.attempt.keep
      ensures stale <==> !held && old(reused) && !f.attempt.local && !f.cancelled
      ensures held && !f.attempt.BadPadding? ==> !reused
      ensures f.attempt.BadPadding? ==> log == old(log) && reused == old(reused)
      ensures !f.attempt.BadPadding? ==>
                log == old(log) +
                [if measured then Measured(conn, f.attempt.Failed? ==> f.attempt.released, stale) else Primed(conn)]
      ensures Primes(log, conn) == Primes(old(log), conn) + if measured || f.attempt.BadPadding? then 0 else 1
    {
      if f.attempt.BadPadding? {
        return true, false;
      }
      failed, stale := f.attempt.Failed?, false;
      var released := f.attempt.Failed? ==> f.attempt.released;
      if !failed || f.attempt.keep {
        reused := false;
      } else {
        var untried := reused && !f.attempt.local;
        held, reused := false, false;
        stale := untried && !f.cancelled;
      }
      ghost var e := if measured then Measured(conn, released, stale) else Primed(conn);
      Appended(log, e, warmup);
      log := log + [e];
    }

    /** Makes the configured number of priming attempts on a cold connection; a batch
        that fails without killing it still counts as an attempt. */
    method Warm(script: seq<Fate>) returns (w: Warmed, rest: seq<Fate>)
      requires Valid() && held && Primes(log, conn) == 0
      modifies this
      ensures Valid() && |rest| <= |script| && SameTotals(old(log), log)
      ensures w.Hot? ==> Ready() && held && conn == old(conn)
      ensures w.Died? ==> !held
      ensures w.Unrepairable? || w.Interrupted? ==> MetFatal(script, rest)
      ensures rest == script[|script| - |rest|..] && (w.Unobserved? ==> rest == [] && held)
      ensures w.Hot? ==> |script| - |rest| == warmup
      ensures w.Unobserved? || w.Hot? || w.Died? ==> |log| - |old(log)| == |script| - |rest|
    {
      rest := script;
      var k := 0;
      while k < warmup
        invariant Valid() && held && conn == old(conn) && Primes(log, conn) == k <= warmup && (k > 0 ==> !reused)
        invariant |rest| <= |script| && k == |script| - |rest| && SameTotals(old(log), log)
        invariant rest == script[|script| - |rest|..] && |log| - |old(log)| == |script| - |rest|
      {
        if rest == [] {
          return Unobserved, rest;
        }
        var f := rest[0];
        assert f == script[|script| - |rest|];
        rest := rest[1..];
        ghost var before := log;
        var failed, _ := Send(false, f);
        SameTotalsStep(old(log), before, log);
        if Fatal(f) {
          LastMet(script, rest);
        }
        if !f.accepted {
          return Interrupted, rest;
        }
        if failed {
          if f.attempt.BadPadding? || f.cancelled {
            return Unrepairable, rest;
          }
          if !held {
            return Died, rest;
          }
        }
        k := k + 1;
      }
      w := Hot;
    }

    /** One round of a trial: takes and primes a connection if none is held, and sends
        the batch. */
    method Round(f: Fate, script: seq<Fate>, ghost start: seq<Event>, ghost had: bool, ghost replaced: nat)
      returns (turn: Turn, rest: seq<Fate>)
      requires Ready() && Account(start, had, log, held, replaced) && replaced <= 1
      modifies this
      ensures Valid() && (turn == Done(Completed) || turn.Again? ==> Ready())
      ensures Rounded(turn, start, had, replaced, old(log), log, held, f, script, rest)
    {
      rest := script;
      ghost var before := log;
      AccountConcludes(start, had, log, held, replaced);
      var cold, ok := Acquire(f);
      if !ok {
        return Done(Terminal), rest;
      }
      if cold {
        AcquireAccounts(start, had, before, replaced, conn);
      }
      turn, rest := PrimeAndMeasure(cold, f, script, start, had, replaced, before);
    }

    /** The part of a round with a connection in hand. A batch sent after priming meets the
        fate of that later moment. */
    method PrimeAndMeasure(cold: bool, f: Fate, script: seq<Fate>, ghost start: seq<Event>, ghost had: bool,
                           ghost replaced: nat, ghost before: seq<Event>)
      returns (turn: Turn, rest: seq<Fate>)
      requires Valid() && held && Account(start, had, log, true, replaced) && replaced <= 1
      requires if cold then Primes(log, conn) == 0 && |log| == |before| + 1 else Ready() && log == before
      modifies this
      ensures Valid() && (turn == Done(Completed) || turn.Again? ==> Ready())
      ensures Rounded(turn, start, had, replaced, before, log, held, f, script, rest)
    {
      rest := script;
      if f.stopping {
        AccountConcludes(start, had, log, true, replaced);
        return Done(RunStopped), rest;
      }
      if cold {
        ghost var taken := log;
        turn, rest := Prime(script, start, had, replaced);
        if turn != Done(Completed) {
          PrimeRounds(turn, start, had, replaced, before, taken, log, held, f, script, rest);
          return;
        }
      }
      ghost var ready := log;
      var g := f;
      if |rest| < |script| {
        if rest == [] {
          CutOff(start, had, replaced, before, log, f, script);
          return Done(Unfinished), rest;
        }
        g := rest[0];
        rest := rest[1..];
      }
      turn := Measure(g, start, had, replaced);
      MeasureRounds(turn, start, had, replaced, before, ready, log, held, f, g, script, rest);
    }

    /** Primes the connection just taken. */
    method Prime(script: seq<Fate>, ghost start: seq<Event>, ghost had: bool, ghost replaced: nat)
      returns (turn: Turn, rest: seq<Fate>)
      requires Valid() && held && Primes(log, conn) == 0 && Account(start, had, log, true, replaced) && replaced <= 1
      modifies this
      ensures Valid() && |rest| <= |script| && rest == script[|script| - |rest|..]
      ensures PrimedTurn(turn, start, had, replaced, old(log), log, held, script, rest)
      ensures turn.Again? || turn == Done(Completed) ==> Ready()
      ensures turn == Done(Completed) ==> |script| - |rest| == warmup
    {
      ghost var before := log;
      var w;
      w, rest := Warm(script);
      WarmAccounts(start, had, before, log, replaced);
      if w.Hot? {
        return Done(Completed), rest;
      }
      AccountConcludes(start, had, log, true, replaced);
      return (if w.Died? then Again(true) else Done(if w.Unobserved? then Unfinished else Terminal)), rest;
    }

    /** Sends the measured batch on the primed connection. */
    method Measure(f: Fate, ghost start: seq<Event>, ghost had: bool, ghost replaced: nat) returns (turn: Turn)
      requires Ready() && held && Account(start, had, log, true, replaced) && replaced <= 1
      modifies this
      ensures Ready() && MeasuredTurn(turn, start, had, replaced, old(log), log, held, f)
    {
      ghost var before := log;
      AccountConcludes(start, had, log, true, replaced);
      var failed, stale := Send(true, f);
      if f.attempt.BadPadding? {
        return Done(BadRequest);
      }
      MeasureOutcome(start, had, before, log, replaced);
      if failed && stale {
        return Again(false);
      }
      if f.attempt.Failed? && !f.attempt.released && !held && !f.cancelled {
        return Again(true);
      }
      turn := Done(Completed);
    }

    /** Runs one trial on a live, primed connection, taking and priming one whenever none
        is held. It replaces at most one connection that died on it, apart from stale
        pooled ones, of which there are none after priming; the second death is terminal.
        It repeats a batch whose headers were released only if the connection was
        stale, and settles for one that it could repeat only if the run is cancelled. */
    method SendTrial(script: seq<Fate>) returns (outcome: Outcome, rest: seq<Fate>)
      requires Ready()
      modifies this
      ensures Valid() && (outcome.Completed? ==> Ready())
      ensures Concluded(old(log), old(held), log)
      ensures Justified(outcome, old(log), log, Deaths(old(log), old(held), log, held), held, script, rest)
      ensures warmup > 0 ==> Acquisitions(log) - Acquisitions(old(log)) <= if old(held) then 1 else 2
    {
      rest := script;
      var replacements := 0;
      while true
        invariant Ready() && replacements <= 1 && |rest| <= |script| && rest == script[|script| - |rest|..]
        invariant Account(old(log), old(held), log, held, replacements)
        invariant |log| - |old(log)| >= |script| - |rest|
        decreases |rest|
      {
        if rest == [] {
          AccountConcludes(old(log), old(held), log, held, replacements);
          return Unfinished, rest;
        }
        ghost var before := rest;
        var turn;
        turn, rest := Round(rest[0], rest[1..], old(log), old(held), replacements);
        if turn.Done? {
          ReasonedIsJustified(turn.outcome, old(log), old(held), log, held, script, before, rest);
          return turn.outcome, rest;
        }
        if turn.counted {
          replacements := replacements + 1;
          if replacements > 1 {
            SecondDeath(old(log), old(held), log, script, rest);
            return Terminal, rest;
          }
        }
      }
    }
  }
}
