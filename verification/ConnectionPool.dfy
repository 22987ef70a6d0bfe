/** The connection pool of one origin: a token semaphore, an idle queue and an epoch,
    under every interleaving of acquiring, returning, discarding and closing. */
module ConnectionPool {
  import Perms
  import opened Sequences

  datatype Idle = Idle(conn: nat, since: int)

  /** Where a token holder stands. Connections are numbered as they are dialled. */
  datatype Phase =
    | HasToken
    | Dialling(epoch: nat)
    | Holding(conn: nat, reused: bool, epoch: nat)
    | Releasing

  datatype State = State(limit: nat, tokens: nat, idle: seq<Idle>, epoch: nat, holders: map<nat, Phase>, dialled: nat)

  datatype Step =
    | TakeToken(p: nat)
    | TakeIdle(p: nat, cutoff: int)
    | DialSucceeds(p: nat)
    | DialFails(p: nat)
    | PutIdle(p: nat, now: int)
    | Discard(p: nat)
    | Release(p: nat)
    | CloseIdle

  function Start(limit: nat): State { State(limit, limit, [], 0, map[], 0) }

  /** Length of the leading run of connections idle since before cutoff. */
  function Expired(idle: seq<Idle>, cutoff: int): (k: nat)
    ensures k <= |idle|
    ensures forall i :: 0 <= i < k ==> idle[i].since < cutoff
    ensures k < |idle| ==> idle[k].since >= cutoff
  {
    if idle == [] || idle[0].since >= cutoff then 0 else 1 + Expired(idle[1..], cutoff)
  }

  predicate Enabled(s: State, step: Step) {
    match step
    case TakeToken(p) => p !in s.holders && s.tokens > 0
    case TakeIdle(p, _) => p in s.holders && s.holders[p].HasToken?
    case DialSucceeds(p) => p in s.holders && s.holders[p].Dialling?
    case DialFails(p) => p in s.holders && s.holders[p].Dialling?
    case PutIdle(p, _) => p in s.holders && s.holders[p].Holding?
    case Discard(p) => p in s.holders && s.holders[p].Holding?
    case Release(p) => p in s.holders && s.holders[p].Releasing?
    case CloseIdle => true
  }

  function Next(s: State, step: Step): State
    requires Enabled(s, step)
  {
    match step
    case TakeToken(p) => s.(tokens := s.tokens - 1, holders := s.holders[p := HasToken])
    case TakeIdle(p, cutoff) =>
      var live := s.idle[Expired(s.idle, cutoff)..];
      if live == [] then s.(idle := [], holders := s.holders[p := Dialling(s.epoch)])
      else s.(idle := live[1..], holders := s.holders[p := Holding(live[0].conn, true, s.epoch)])
    case DialSucceeds(p) =>
      s.(holders := s.holders[p := Holding(s.dialled, false, s.holders[p].epoch)], dialled := s.dialled + 1)
    case DialFails(p) => s.(holders := s.holders[p := Releasing])
    case PutIdle(p, now) =>
      var h := s.holders[p];
      var back := s.(holders := s.holders[p := Releasing]);
      if h.epoch != s.epoch then back else back.(idle := s.idle + [Idle(h.conn, now)])
    case Discard(p) => s.(holders := s.holders[p := Releasing])
    case Release(p) => s.(tokens := s.tokens + 1, holders := s.holders - {p})
    case CloseIdle => s.(idle := [], epoch := s.epoch + 1)
  }

  function Execute(steps: seq<Step>, from: State): Option<State>
    decreases |steps|
  {
    if steps == [] then Some(from)
    else
      var last := steps[|steps| - 1];
      var before := Execute(steps[..|steps| - 1], from);
      if before.Some? && Enabled(before.value, last) then Some(Next(before.value, last)) else None
  }

  // ------------------------------------------------------------------ invariant

  /** Holders that are dialling a connection or have one. */
  function Connected(holders: map<nat, Phase>): set<nat> {
    set p | p in holders && (holders[p].Dialling? || holders[p].Holding?)
  }

  predicate IdleNumbered(idle: seq<Idle>, dialled: nat) {
    && (forall i :: 0 <= i < |idle| ==> idle[i].conn < dialled)
    && (forall i, j :: 0 <= i < j < |idle| ==> idle[i].conn != idle[j].conn)
  }

  predicate HeldNumbered(holders: map<nat, Phase>, dialled: nat) {
    && (forall p :: p in holders && holders[p].Holding? ==> holders[p].conn < dialled)
    && (forall p, q :: p in holders && q in holders && p != q && holders[p].Holding? && holders[q].Holding? ==>
          holders[p].conn != holders[q].conn)
  }

  /** No connection is both held and idle. */
  predicate Apart(idle: seq<Idle>, holders: map<nat, Phase>) {
    forall p, i :: p in holders && holders[p].Holding? && 0 <= i < |idle| ==> holders[p].conn != idle[i].conn
  }

  predicate Numbered(idle: seq<Idle>, holders: map<nat, Phase>, dialled: nat) {
    IdleNumbered(idle, dialled) && HeldNumbered(holders, dialled) && Apart(idle, holders)
  }

  predicate Counted(s: State) {
    && s.tokens + |s.holders| == s.limit
    && |s.idle| + |Connected(s.holders)| <= s.limit
  }

  predicate Epochs(s: State) {
    forall p :: p in s.holders && (s.holders[p].Holding? || s.holders[p].Dialling?) ==> s.holders[p].epoch <= s.epoch
  }

  predicate Inv(s: State) { Counted(s) && Numbered(s.idle, s.holders, s.dialled) && Epochs(s) }

  predicate HasConnection(phase: Phase) { phase.Dialling? || phase.Holding? }

  lemma ConnectedAfter(holders: map<nat, Phase>, p: nat, phase: Phase)
    ensures Connected(holders[p := phase]) == (Connected(holders) - {p}) + if HasConnection(phase) then {p} else {}
  {
    var after := Connected(holders[p := phase]);
    assert after - {p} == Connected(holders) - {p};
  }

  /** A holder that changes its phase keeps its token. */
  lemma Rephase(holders: map<nat, Phase>, p: nat, phase: Phase)
    requires p in holders
    ensures |holders[p := phase]| == |holders|
    ensures |Connected(holders[p := phase])| ==
            |Connected(holders)| - (if HasConnection(holders[p]) then 1 else 0) +
            (if HasConnection(phase) then 1 else 0)
  {
    assert holders[p := phase].Keys == holders.Keys;
    ConnectedAfter(holders, p, phase);
    assert p in Connected(holders) <==> HasConnection(holders[p]);
  }

  lemma ConnectedBounded(holders: map<nat, Phase>)
    ensures |Connected(holders)| <= |holders|
  {
    Perms.SubsetSize(Connected(holders), holders.Keys);
  }

  lemma TakeTokenCounts(s: State, p: nat)
    requires Counted(s) && Enabled(s, TakeToken(p))
    ensures Counted(Next(s, TakeToken(p)))
  {
    var t := Next(s, TakeToken(p));
    assert t.holders.Keys == s.holders.Keys + {p};
    assert |t.holders| == |s.holders| + 1;
    assert Connected(t.holders) == Connected(s.holders) by {
      ConnectedAfter(s.holders, p, HasToken);
    }
  }

  lemma ReleaseCounts(s: State, p: nat)
    requires Counted(s) && Enabled(s, Release(p))
    ensures Counted(Next(s, Release(p)))
  {
    var t := Next(s, Release(p));
    assert t.holders.Keys == s.holders.Keys - {p};
    assert Connected(t.holders) == Connected(s.holders);
  }

  /** A dial begins only on an empty idle queue, so that holders bound connections. */
  lemma TakeIdleCounts(s: State, p: nat, cutoff: int)
    requires Counted(s) && Enabled(s, TakeIdle(p, cutoff))
    ensures Counted(Next(s, TakeIdle(p, cutoff)))
  {
    var t := Next(s, TakeIdle(p, cutoff));
    Rephase(s.holders, p, t.holders[p]);
    ConnectedBounded(t.holders);
  }

  lemma StepKeepsCounts(s: State, step: Step)
    requires Counted(s) && Enabled(s, step)
    ensures Counted(Next(s, step))
  {
    match step
    case TakeToken(p) => TakeTokenCounts(s, p);
    case TakeIdle(p, cutoff) => TakeIdleCounts(s, p, cutoff);
    case DialSucceeds(p) => Rephase(s.holders, p, Next(s, step).holders[p]);
    case DialFails(p) => Rephase(s.holders, p, Releasing);
    case PutIdle(p, _) => Rephase(s.holders, p, Releasing);
    case Discard(p) => Rephase(s.holders, p, Releasing);
    case Release(p) => ReleaseCounts(s, p);
    case CloseIdle =>
  }

  lemma DropIdle(idle: seq<Idle>, holders: map<nat, Phase>, dialled: nat, k: nat)
    requires Numbered(idle, holders, dialled) && k <= |idle|
    ensures Numbered(idle[k..], holders, dialled)
  {
    assert forall i :: 0 <= i < |idle| - k ==> idle[k..][i] == idle[k + i];
  }

  lemma HoldFirst(idle: seq<Idle>, holders: map<nat, Phase>, dialled: nat, p: nat, h: Phase)
    requires Numbered(idle, holders, dialled) && idle != [] && h.Holding? && h.conn == idle[0].conn
    ensures Numbered(idle[1..], holders[p := h], dialled)
  {
    DropIdle(idle, holders, dialled, 1);
  }

  lemma HoldNew(idle: seq<Idle>, holders: map<nat, Phase>, dialled: nat, p: nat, h: Phase)
    requires Numbered(idle, holders, dialled) && h.Holding? && h.conn == dialled
    ensures Numbered(idle, holders[p := h], dialled + 1)
  {
  }

  lemma LetGo(idle: seq<Idle>, holders: map<nat, Phase>, dialled: nat, p: nat, phase: Phase)
    requires Numbered(idle, holders, dialled) && !phase.Holding?
    ensures Numbered(idle, holders[p := phase], dialled) && Numbered(idle, holders - {p}, dialled)
  {
  }

  lemma MakeIdle(idle: seq<Idle>, holders: map<nat, Phase>, dialled: nat, p: nat, now: int)
    requires Numbered(idle, holders, dialled) && p in holders && holders[p].Holding?
    ensures Numbered(idle + [Idle(holders[p].conn, now)], holders[p := Releasing], dialled)
  {
    LetGo(idle, holders, dialled, p, Releasing);
  }

  lemma TakeIdleNumbers(s: State, p: nat, cutoff: int)
    requires Numbered(s.idle, s.holders, s.dialled) && Enabled(s, TakeIdle(p, cutoff))
    ensures var t := Next(s, TakeIdle(p, cutoff)); Numbered(t.idle, t.holders, t.dialled)
  {
    var live := s.idle[Expired(s.idle, cutoff)..];
    DropIdle(s.idle, s.holders, s.dialled, Expired(s.idle, cutoff));
    if live == [] {
      LetGo(live, s.holders, s.dialled, p, Dialling(s.epoch));
    } else {
      HoldFirst(live, s.holders, s.dialled, p, Holding(live[0].conn, true, s.epoch));
    }
  }

  lemma StepKeepsNumbers(s: State, step: Step)
    requires Inv(s) && Enabled(s, step)
    ensures var t := Next(s, step); Numbered(t.idle, t.holders, t.dialled)
  {
    match step
    case TakeToken(p) => LetGo(s.idle, s.holders, s.dialled, p, HasToken);
    case TakeIdle(p, cutoff) => TakeIdleNumbers(s, p, cutoff);
    case DialSucceeds(p) => HoldNew(s.idle, s.holders, s.dialled, p, Holding(s.dialled, false, s.holders[p].epoch));
    case DialFails(p) => LetGo(s.idle, s.holders, s.dialled, p, Releasing);
    case PutIdle(p, now) =>
      LetGo(s.idle, s.holders, s.dialled, p, Releasing);
      MakeIdle(s.idle, s.holders, s.dialled, p, now);
    case Discard(p) => LetGo(s.idle, s.holders, s.dialled, p, Releasing);
    case Release(p) => LetGo(s.idle, s.holders, s.dialled, p, Releasing);
    case CloseIdle =>
  }

  lemma StepKeepsEpochs(s: State, step: Step)
    requires Epochs(s) && Enabled(s, step)
    ensures Epochs(Next(s, step))
  {
  }

  // --------------------------------------------------------- the main results

  /** In every interleaving tokens and token holders together equal the limit, and
      dialling, held and idle connections together never exceed it. */
  lemma {:induction false} PoolIsBounded(steps: seq<Step>, limit: nat)
    requires Execute(steps, Start(limit)).Some?
    ensures Inv(Execute(steps, Start(limit)).value) && Execute(steps, Start(limit)).value.limit == limit
  {
    if steps == [] {
      assert Connected(map[]) == {};
    } else {
      var before, last := steps[..|steps| - 1], steps[|steps| - 1];
      PoolIsBounded(before, limit);
      StepKeepsCounts(Execute(before, Start(limit)).value, last);
      StepKeepsNumbers(Execute(before, Start(limit)).value, last);
      StepKeepsEpochs(Execute(before, Start(limit)).value, last);
    }
  }

  /** The token channel has room whenever a token is handed back. */
  lemma ReleaseNeverBlocks(steps: seq<Step>, limit: nat, p: nat)
    requires Execute(steps, Start(limit)).Some? && Enabled(Execute(steps, Start(limit)).value, Release(p))
    ensures Execute(steps, Start(limit)).value.tokens < limit
  {
    PoolIsBounded(steps, limit);
    var s := Execute(steps, Start(limit)).value;
    assert p in s.holders.Keys;
  }

  /** Connection c exists, is not idle, and can only come back under an old epoch. */
  predicate Condemned(s: State, c: nat) {
    && c < s.dialled
    && (forall i :: 0 <= i < |s.idle| ==> s.idle[i].conn != c)
    && (forall p :: p in s.holders && s.holders[p].Holding? && s.holders[p].conn == c ==> s.holders[p].epoch < s.epoch)
  }

  lemma {:induction false} CondemnedForever(steps: seq<Step>, s: State, c: nat)
    requires Condemned(s, c) && Execute(steps, s).Some?
    ensures Condemned(Execute(steps, s).value, c)
  {
    if steps != [] {
      CondemnedForever(steps[..|steps| - 1], s, c);
      CondemnedStep(Execute(steps[..|steps| - 1], s).value, steps[|steps| - 1], c);
    }
  }

  lemma CondemnedStep(s: State, step: Step, c: nat)
    requires Condemned(s, c) && Enabled(s, step)
    ensures Condemned(Next(s, step), c)
  {
    if step.TakeIdle? {
      var live := s.idle[Expired(s.idle, step.cutoff)..];
      assert forall i :: 0 <= i < |live| ==> live[i] == s.idle[Expired(s.idle, step.cutoff) + i];
    }
  }

  /** No connection dialled before a CloseIdleConnections is ever idle after it. */
  lemma ClosedStaysOut(before: seq<Step>, after: seq<Step>, limit: nat, c: nat)
    requires Execute(before, Start(limit)).Some? && c < Execute(before, Start(limit)).value.dialled
    requires Execute(after, Next(Execute(before, Start(limit)).value, CloseIdle)).Some?
    ensures Condemned(Execute(after, Next(Execute(before, Start(limit)).value, CloseIdle)).value, c)
  {
    PoolIsBounded(before, limit);
    CondemnedForever(after, Next(Execute(before, Start(limit)).value, CloseIdle), c);
  }

  /** A dial that straddles CloseIdleConnections yields a condemned connection. */
  lemma LateDialIsCondemned(steps: seq<Step>, limit: nat, p: nat, after: seq<Step>)
    requires Execute(steps, Start(limit)).Some?
    requires var s := Execute(steps, Start(limit)).value;
             Enabled(s, DialSucceeds(p)) && s.holders[p].epoch < s.epoch &&
             Execute(after, Next(s, DialSucceeds(p))).Some?
    ensures var s := Execute(steps, Start(limit)).value;
            Condemned(Execute(after, Next(s, DialSucceeds(p))).value, s.dialled)
  {
    PoolIsBounded(steps, limit);
    var s := Execute(steps, Start(limit)).value;
    CondemnedForever(after, Next(s, DialSucceeds(p)), s.dialled);
  }

  // ------------------------------------------------------ the locked operations

  /** One attempt of a batch: its success, whether the connection survived, whether a
      configured limit ended it, and whether the caller's context is done. */
  datatype Attempt = Attempt(ok: bool, keep: bool, local: bool, cancelled: bool)

  /** A failure that a stale pooled connection explains. */
  predicate Stale(a: Attempt) { !a.ok && !a.keep && !a.local && !a.cancelled }

  /** The idle connections that successive takes hand out. */
  function Reusable(idle: seq<Idle>, cutoff: int): (r: seq<nat>)
    ensures |r| <= |idle|
    decreases |idle|
  {
    var k := Expired(idle, cutoff);
    if k == |idle| then [] else [idle[k].conn] + Reusable(idle[k + 1..], cutoff)
  }

  /** Every attempt so far failed on a stale pooled connection. */
  ghost predicate StaleSoFar(attempt: nat -> Attempt, reused: seq<bool>) {
    forall k :: 0 <= k < |reused| ==> reused[k] && Stale(attempt(k))
  }

  /** The attempts of a send with this many live idle connections: every one but the last
      failed on a stale connection, a dial comes only after the pool is used up, and the
      send gives up only on a result that no other connection repairs or a failed dial. */
  ghost predicate Explained(attempt: nat -> Attempt, dials: nat -> bool, live: nat, sent: bool, reused: seq<bool>) {
    if reused == [] then !sent && live == 0 && !dials(0)
    else
      var last := |reused| - 1;
      && StaleSoFar(attempt, reused[..last]) && last <= live && reused[last] == (last < live)
      && (!reused[last] ==> dials(last)) && sent == attempt(last).ok
      && (reused[last] && Stale(attempt(last)) ==> |reused| == live && !dials(live))
  }

  lemma AttemptExplains(attempt: nat -> Attempt, dials: nat -> bool, live: nat, before: seq<bool>, reuse: bool)
    requires StaleSoFar(attempt, before) && |before| <= live && reuse == (|before| < live) && (reuse || dials(|before|))
    ensures var after := before + [reuse];
            && (!(reuse && Stale(attempt(|before|))) ==> Explained(attempt, dials, live, attempt(|before|).ok, after))
            && (reuse && Stale(attempt(|before|)) ==> StaleSoFar(attempt, after))
  {
    assert (before + [reuse])[..|before|] == before;
  }

  lemma DialExplains(attempt: nat -> Attempt, dials: nat -> bool, live: nat, reused: seq<bool>)
    requires StaleSoFar(attempt, reused) && |reused| == live && !dials(live)
    ensures Explained(attempt, dials, live, false, reused)
  {
  }

  lemma ExpiredNext(idle: seq<Idle>, k: nat, cutoff: int)
    requires k <= |idle|
    ensures Expired(idle[k..], cutoff) ==
            if k < |idle| && idle[k].since < cutoff then 1 + Expired(idle[k + 1..], cutoff) else 0
  {
    if k < |idle| {
      assert idle[k..][1..] == idle[k + 1..];
    }
  }

  /** The expired prefix. */
  method Outdated(idle: seq<Idle>, cutoff: int) returns (expired: seq<nat>, k: nat)
    ensures k == Expired(idle, cutoff) && |expired| == k && forall i :: 0 <= i < k ==> expired[i] == idle[i].conn
  {
    expired, k := [], 0;
    assert idle[0..] == idle;
    while k < |idle| && idle[k].since < cutoff
      invariant k <= |idle| && k + Expired(idle[k..], cutoff) == Expired(idle, cutoff)
      invariant |expired| == k && forall i :: 0 <= i < k ==> expired[i] == idle[i].conn
    {
      ExpiredNext(idle, k, cutoff);
      expired := expired + [idle[k].conn];
      k := k + 1;
    }
    ExpiredNext(idle, k, cutoff);
  }

  lemma OneMoreStep(steps: seq<Step>, from: State, before: State, step: Step)
    requires Execute(steps, from) == Some(before) && Enabled(before, step)
    ensures Execute(steps + [step], from) == Some(Next(before, step))
  {
    assert (steps + [step])[..|steps|] == steps;
  }

  /** The connections a send used, one per attempt: the live idle ones, oldest first, and
      then a new one. */
  predicate UsedInOrder(live: seq<nat>, next: nat, reused: seq<bool>, used: seq<nat>) {
    && |used| == |reused|
    && forall k :: 0 <= k < |used| ==>
         if reused[k] then k < |live| && used[k] == live[k] else k == |used| - 1 && used[k] == next
  }

  /** What lies behind connection conn in the idle queue. */
  function Behind(idle: seq<Idle>, conn: nat): seq<Idle> {
    if idle == [] then [] else if idle[0].conn == conn then idle[1..] else Behind(idle[1..], conn)
  }

  /** The idle queue while a send goes on: what lies behind the last connection it took. */
  function QueueSoFar(was: seq<Idle>, used: seq<nat>): seq<Idle> {
    if used == [] then was else Behind(was, used[|used| - 1])
  }

  /** The idle queue that a send leaves: what lies behind the last connection that it took
      from there, or nothing once it had to dial; and at the end its last connection,
      exactly if the attempt kept it. */
  ghost predicate QueueLeft(was: seq<Idle>, attempt: nat -> Attempt, reused: seq<bool>, used: seq<nat>, now: int,
                            idle: seq<Idle>)
    requires |reused| == |used|
  {
    if used == [] then idle == []
    else
      var last := |used| - 1;
      var rest := if reused[last] && !Stale(attempt(last)) then Behind(was, used[last]) else [];
      idle == if attempt(last).keep then rest + [Idle(used[last], now)] else rest
  }

  lemma {:induction false} BehindAt(idle: seq<Idle>, dialled: nat, j: nat)
    requires IdleNumbered(idle, dialled) && j < |idle|
    ensures Behind(idle, idle[j].conn) == idle[j + 1..]
  {
    if j > 0 {
      BehindAt(idle[1..], dialled, j - 1);
      assert idle[1..][j - 1] == idle[j] && idle[1..][j..] == idle[j + 1..];
    }
  }

  lemma {:induction false} BehindIsEnd(idle: seq<Idle>, conn: nat)
    ensures |Behind(idle, conn)| <= |idle| && Behind(idle, conn) == idle[|idle| - |Behind(idle, conn)|..]
  {
    if idle != [] && idle[0].conn != conn {
      BehindIsEnd(idle[1..], conn);
      var b := |Behind(idle, conn)|;
      assert idle[1..][|idle| - 1 - b..] == idle[|idle| - b..];
    }
  }

  /** Taking connection k of the queue leaves what lies behind it. */
  lemma TookNext(was: seq<Idle>, dialled: nat, used: seq<nat>, k: nat)
    requires IdleNumbered(was, dialled) && k < |QueueSoFar(was, used)|
    ensures var queue := QueueSoFar(was, used); Behind(was, queue[k].conn) == queue[k + 1..]
  {
    var queue := QueueSoFar(was, used);
    var j := |was| - |queue|;
    if used != [] {
      BehindIsEnd(was, used[|used| - 1]);
    }
    BehindAt(was, dialled, j + k);
    assert was[j..][k] == was[j + k] && was[j..][k + 1..] == was[j + k + 1..];
  }

  /** A send that goes on: what it has used, and what is left to use. */
  ghost predicate Trying(was: seq<Idle>, live: seq<nat>, attempt: nat -> Attempt, cutoff: int, next: nat,
                         reused: seq<bool>, used: seq<nat>, idle: seq<Idle>)
  {
    && |reused| <= |live| && Reusable(idle, cutoff) == live[|reused|..]
    && StaleSoFar(attempt, reused) && UsedInOrder(live, next, reused, used)
    && idle == QueueSoFar(was, used)
  }

  /** One attempt of a send, from the idle queue before it. */
  ghost predicate Tried(attempt: Attempt, dial: bool, cutoff: int, next: nat, queue: seq<Idle>, reuse: bool, conn: nat,
                        now: int, idle: seq<Idle>)
  {
    var k := Expired(queue, cutoff);
    && reuse == (k < |queue|) && conn == (if reuse then queue[k].conn else next) && (reuse || dial)
    && var rest := if reuse then queue[k + 1..] else [];
       idle == if attempt.keep then rest + [Idle(conn, now)] else rest
  }

  lemma NextLive(live: seq<nat>, n: nat, queue: seq<Idle>, cutoff: int)
    requires n <= |live| && Reusable(queue, cutoff) == live[n..]
    ensures var k := Expired(queue, cutoff);
            if k == |queue| then n == |live|
            else n < |live| && live[n] == queue[k].conn && Reusable(queue[k + 1..], cutoff) == live[n + 1..]
  {
    ReusableNext(queue, cutoff);
    if n < |live| {
      assert live[n..][1..] == live[n + 1..];
    }
  }

  lemma StaleMore(attempt: nat -> Attempt, reused: seq<bool>)
    requires StaleSoFar(attempt, reused) && Stale(attempt(|reused|))
    ensures StaleSoFar(attempt, reused + [true])
  {
  }

  lemma TryAgain(was: seq<Idle>, live: seq<nat>, attempt: nat -> Attempt, dial: bool, cutoff: int, next: nat,
                 reused: seq<bool>, used: seq<nat>, queue: seq<Idle>, conn: nat, now: int, idle: seq<Idle>)
    requires IdleNumbered(was, next) && Trying(was, live, attempt, cutoff, next, reused, used, queue)
    requires Tried(attempt(|reused|), dial, cutoff, next, queue, true, conn, now, idle) && Stale(attempt(|reused|))
    ensures Trying(was, live, attempt, cutoff, next, reused + [true], used + [conn], idle)
  {
    NextLive(live, |reused|, queue, cutoff);
    TookNext(was, next, used, Expired(queue, cutoff));
    StaleMore(attempt, reused);
    UsedOneMore(live, next, reused, used, true, conn);
  }

  /** A send of this outcome: its attempts, the connections it used, and the idle queue that
      it left. */
  ghost predicate SentAs(was: seq<Idle>, live: seq<nat>, attempt: nat -> Attempt, dials: nat -> bool, next: nat,
                         sent: bool, reused: seq<bool>, used: seq<nat>, now: int, idle: seq<Idle>)
  {
    && Explained(attempt, dials, |live|, sent, reused)
    && UsedInOrder(live, next, reused, used) && QueueLeft(was, attempt, reused, used, now, idle)
  }

  lemma LastTry(was: seq<Idle>, live: seq<nat>, attempt: nat -> Attempt, dials: nat -> bool, cutoff: int, next: nat,
                reused: seq<bool>, used: seq<nat>, queue: seq<Idle>, reuse: bool, conn: nat, now: int, idle: seq<Idle>)
    requires IdleNumbered(was, next) && Trying(was, live, attempt, cutoff, next, reused, used, queue)
    requires Tried(attempt(|reused|), dials(|reused|), cutoff, next, queue, reuse, conn, now, idle)
    requires !(reuse && Stale(attempt(|reused|)))
    ensures SentAs(was, live, attempt, dials, next, attempt(|reused|).ok, reused + [reuse], used + [conn], now, idle)
  {
    NextLive(live, |reused|, queue, cutoff);
    if reuse {
      TookNext(was, next, used, Expired(queue, cutoff));
    }
    AttemptExplains(attempt, dials, |live|, reused, reuse);
    UsedOneMore(live, next, reused, used, reuse, conn);
  }

  lemma DialEnds(was: seq<Idle>, live: seq<nat>, attempt: nat -> Attempt, dials: nat -> bool, cutoff: int, next: nat,
                 reused: seq<bool>, used: seq<nat>, queue: seq<Idle>, now: int)
    requires Trying(was, live, attempt, cutoff, next, reused, used, queue)
    requires Expired(queue, cutoff) == |queue| && !dials(|reused|)
    ensures SentAs(was, live, attempt, dials, next, false, reused, used, now, [])
  {
    NextLive(live, |reused|, queue, cutoff);
    DialExplains(attempt, dials, |live|, reused);
  }

  /** The pool of one origin. Every state of its fields is one that a run of the protocol
      reaches; holders and run exist for the proof. */
  class OriginPool {
    const limit: nat
    var tokens: nat
    var idle: seq<Idle>
    var epoch: nat
    var dialled: nat
    ghost var holders: map<nat, Phase>
    ghost var run: seq<Step>

    ghost function View(): State
      reads this
    {
      State(limit, tokens, idle, epoch, holders, dialled)
    }

    ghost predicate Valid()
      reads this
    {
      Execute(run, Start(limit)) == Some(View())
    }

    constructor (limit: nat)
      ensures Valid() && this.limit == limit && tokens == limit && idle == [] && epoch == 0 && dialled == 0
      ensures holders == map[] && run == []
    {
      this.limit, tokens, idle, epoch, dialled := limit, limit, [], 0, 0;
      holders, run := map[], [];
    }

    /** The fields have taken one step of the protocol. */
    ghost method Log(before: State, step: Step)
      requires Execute(run, Start(limit)) == Some(before) && Enabled(before, step) && View() == Next(before, step)
      modifies this`run
      ensures Valid() && run == old(run) + [step]
    {
      OneMoreStep(run, Start(limit), before, step);
      run := run + [step];
    }

    /** Evicts the expired prefix and takes the oldest live connection, which is never
        an expired one. */
    method TakeOldest(cutoff: int, ghost p: nat) returns (expired: seq<nat>, reuse: Option<nat>, seen: nat)
      requires Valid() && p in holders && holders[p].HasToken?
      modifies this`idle, this`holders, this`run
      ensures Valid() && run == old(run) + [TakeIdle(p, cutoff)] && seen == epoch
      ensures holders == old(holders)[p := if reuse.Some? then Holding(reuse.value, true, seen) else Dialling(seen)]
      ensures var k := Expired(old(idle), cutoff);
              && |expired| == k && (forall i :: 0 <= i < k ==> expired[i] == old(idle)[i].conn)
              && reuse == (if k < |old(idle)| then Some(old(idle)[k].conn) else None)
              && idle == (if k < |old(idle)| then old(idle)[k + 1..] else [])
    {
      ghost var before := View();
      seen := epoch;
      var k;
      expired, k := Outdated(idle, cutoff);
      LiveAfter(idle, k);
      if k == |idle| {
        idle, reuse := [], None;
      } else {
        reuse := Some(idle[k].conn);
        idle := idle[k + 1..];
      }
      holders := holders[p := if reuse.Some? then Holding(reuse.value, true, seen) else Dialling(seen)];
      Log(before, TakeIdle(p, cutoff));
    }

    /** Returns a healthy connection, unless its epoch has been closed. Its token always
        finds room. */
    method PutBack(conn: nat, seen: nat, now: int, ghost p: nat)
      requires Valid() && p in holders && holders[p].Holding? && holders[p].conn == conn && holders[p].epoch == seen
      modifies this`idle, this`tokens, this`holders, this`run
      ensures Valid() && run == old(run) + [PutIdle(p, now), Release(p)] && holders == old(holders) - {p}
      ensures tokens == old(tokens) + 1 <= limit
      ensures idle == if seen == epoch then old(idle) + [Idle(conn, now)] else old(idle)
    {
      ghost var before := View();
      if seen == epoch {
        idle := idle + [Idle(conn, now)];
      }
      holders := holders[p := Releasing];
      Log(before, PutIdle(p, now));
      Free(p);
      assert old(holders)[p := Releasing] - {p} == old(holders) - {p};
    }

    /** Gives a token back. */
    method Free(ghost p: nat)
      requires Valid() && p in holders && holders[p].Releasing?
      modifies this`tokens, this`holders, this`run
      ensures Valid() && run == old(run) + [Release(p)] && holders == old(holders) - {p}
      ensures tokens == old(tokens) + 1 <= limit
    {
      ghost var before := View();
      ReleaseNeverBlocks(run, limit, p);
      tokens := tokens + 1;
      holders := holders - {p};
      Log(before, Release(p));
    }

    /** Closes a dead connection. */
    method Drop(ghost p: nat)
      requires Valid() && p in holders && holders[p].Holding?
      modifies this`tokens, this`holders, this`run
      ensures Valid() && run == old(run) + [Discard(p), Release(p)] && holders == old(holders) - {p}
      ensures tokens == old(tokens) + 1 <= limit
    {
      ghost var before := View();
      holders := holders[p := Releasing];
      Log(before, Discard(p));
      Free(p);
      assert old(holders)[p := Releasing] - {p} == old(holders) - {p};
    }

    /** Closes the idle connections, and condemns those in use. */
    method CloseAllIdle()
      requires Valid()
      modifies this`idle, this`epoch, this`run
      ensures Valid() && run == old(run) + [CloseIdle] && idle == [] && epoch == old(epoch) + 1
    {
      ghost var before := View();
      idle, epoch := [], epoch + 1;
      Log(before, CloseIdle);
    }

    /** The end of a dial. */
    method Dialled(dials: bool, ghost p: nat) returns (conn: Option<nat>)
      requires Valid() && p in holders && holders[p].Dialling?
      modifies this`tokens, this`dialled, this`holders, this`run
      ensures Valid() && old(run) <= run && conn.Some? == dials
      ensures if dials then
                && conn == Some(old(dialled)) && dialled == old(dialled) + 1 && tokens == old(tokens)
                && holders == old(holders)[p := Holding(old(dialled), false, old(holders)[p].epoch)]
              else tokens == old(tokens) + 1 && holders == old(holders) - {p} && dialled == old(dialled)
    {
      ghost var before := View();
      if dials {
        conn := Some(dialled);
        holders := holders[p := Holding(dialled, false, holders[p].epoch)];
        dialled := dialled + 1;
        Log(before, DialSucceeds(p));
      } else {
        conn := None;
        holders := holders[p := Releasing];
        Log(before, DialFails(p));
        Free(p);
        assert old(holders)[p := Releasing] - {p} == old(holders) - {p};
      }
    }

    /** Takes a token and the oldest live connection, or else dials one; a failed dial
        gives the token back. */
    method Acquire(cutoff: int, dials: bool, ghost p: nat) returns (conn: Option<nat>, reuse: bool, seen: nat)
      requires Valid() && p !in holders && tokens > 0
      modifies this
      ensures Valid() && old(run) <= run && epoch == old(epoch) && seen == epoch
      ensures tokens == old(tokens) - if conn.Some? then 1 else 0
      ensures holders == if conn.Some? then old(holders)[p := Holding(conn.value, reuse, seen)] else old(holders)
      ensures reuse == (Expired(old(idle), cutoff) < |old(idle)|) && conn.Some? == (reuse || dials)
      ensures idle == if reuse then old(idle)[Expired(old(idle), cutoff) + 1..] else []
      ensures conn.Some? ==> conn.value == if reuse then old(idle)[Expired(old(idle), cutoff)].conn else old(dialled)
      ensures dialled == old(dialled) + if conn.Some? && !reuse then 1 else 0
    {
      AwaitToken(p);
      var expired;
      expired, conn, seen := TakeOldest(cutoff, p);
      reuse := conn.Some?;
      Overwritten(old(holders), p, HasToken, holders[p]);
      if !reuse {
        conn := Dialled(dials, p);
        Overwritten(old(holders), p, Dialling(seen), if dials then holders[p] else HasToken);
      }
    }

    /** Takes a token. */
    method AwaitToken(ghost p: nat)
      requires Valid() && p !in holders && tokens > 0
      modifies this`tokens, this`holders, this`run
      ensures Valid() && run == old(run) + [TakeToken(p)]
      ensures tokens == old(tokens) - 1 && holders == old(holders)[p := HasToken]
    {
      ghost var before := View();
      tokens := tokens - 1;
      holders := holders[p := HasToken];
      Log(before, TakeToken(p));
    }

    /** Ends the use of a connection: a healthy one is put back, a dead one discarded. */
    method GiveBack(keep: bool, conn: nat, seen: nat, now: int, ghost p: nat)
      requires Valid() && p in holders && holders[p].Holding? && holders[p].conn == conn && holders[p].epoch == seen
      modifies this`idle, this`tokens, this`holders, this`run
      ensures Valid() && old(run) <= run && holders == old(holders) - {p} && tokens == old(tokens) + 1 <= limit
      ensures idle == if keep && seen == epoch then old(idle) + [Idle(conn, now)] else old(idle)
    {
      if keep {
        PutBack(conn, seen, now, p);
      } else {
        Drop(p);
      }
    }

    /** Runs one attempt on a pooled or new connection. */
    method TryOnce(attempt: Attempt, dials: bool, cutoff: int, now: int, ghost p: nat)
      returns (conn: Option<nat>, reuse: bool)
      requires Valid() && p !in holders && tokens > 0
      modifies this
      ensures Valid() && old(run) <= run && holders == old(holders) && tokens == old(tokens) && epoch == old(epoch)
      ensures if conn.Some? then Tried(attempt, dials, cutoff, old(dialled), old(idle), reuse, conn.value, now, idle)
              else !reuse && !dials && Expired(old(idle), cutoff) == |old(idle)| && idle == []
      ensures dialled == old(dialled) + if conn.Some? && !reuse then 1 else 0
    {
      var seen;
      conn, reuse, seen := Acquire(cutoff, dials, p);
      if conn.Some? {
        GiveBack(attempt.keep, conn.value, seen, now, p);
        Overwritten(old(holders), p, Holding(conn.value, reuse, seen), HasToken);
      }
    }

    /** Sends one batch with retries. Attempt results and dial results are inputs,
        and no other caller uses the pool meanwhile. reused and used list, per attempt,
        whether its connection came from the pool and which it was: the idle ones are used
        up, oldest first, before a dial, every attempt but the last failed on a stale
        connection, and nothing is left untried unless a dial fails. The rest of the idle
        queue stays, and the last connection joins it if its attempt kept it. */
    method SendBatch(attempt: nat -> Attempt, dials: nat -> bool, cutoff: int, now: int, ghost p: nat)
      returns (sent: bool, reused: seq<bool>, used: seq<nat>)
      requires Valid() && p !in holders && tokens > 0
      modifies this
      ensures Valid() && old(run) <= run && holders == old(holders)
      ensures tokens == old(tokens) && epoch == old(epoch)
      ensures SentAs(old(idle), Reusable(old(idle), cutoff), attempt, dials, old(dialled), sent, reused, used, now,
                     idle)
      ensures dialled == old(dialled) + if reused != [] && !reused[|reused| - 1] then 1 else 0
    {
      reused, used := [], [];
      PoolIsBounded(run, limit);
      ghost var live := Reusable(idle, cutoff);
      while true
        invariant Valid() && old(run) <= run && holders == old(holders) && dialled == old(dialled)
        invariant 0 < tokens == old(tokens) && epoch == old(epoch)
        invariant Trying(old(idle), live, attempt, cutoff, dialled, reused, used, idle)
        decreases |live| - |reused|
      {
        var result := attempt(|reused|);
        ghost var queue := idle;
        var conn, reuse := TryOnce(result, dials(|reused|), cutoff, now, p);
        if conn.None? {
          DialEnds(old(idle), live, attempt, dials, cutoff, dialled, reused, used, queue, now);
          return false, reused, used;
        }
        ghost var before := |reused|;
        if reuse && Stale(result) {
          TryAgain(old(idle), live, attempt, dials(before), cutoff, old(dialled), reused, used, queue, conn.value, now,
                   idle);
        } else {
          LastTry(old(idle), live, attempt, dials, cutoff, old(dialled), reused, used, queue, reuse, conn.value, now,
                  idle);
        }
        reused, used := reused + [reuse], used + [conn.value];
        if result.ok {
          return true, reused, used;
        }
        if result.keep || !reuse || result.cancelled || result.local {
          return false, reused, used;
        }
      }
    }
  }

  lemma Overwritten(holders: map<nat, Phase>, p: nat, phase: Phase, other: Phase)
    ensures holders[p := phase][p := other] == holders[p := other]
    ensures p !in holders ==> holders[p := phase] - {p} == holders
  {
  }

  lemma ReusableNext(idle: seq<Idle>, cutoff: int)
    ensures var k := Expired(idle, cutoff);
            Reusable(idle, cutoff) == if k == |idle| then [] else [idle[k].conn] + Reusable(idle[k + 1..], cutoff)
  {
  }

  lemma UsedOneMore(live: seq<nat>, next: nat, reused: seq<bool>, used: seq<nat>, reuse: bool, conn: nat)
    requires UsedInOrder(live, next, reused, used) && (forall k :: 0 <= k < |reused| ==> reused[k])
    requires if reuse then |reused| < |live| && conn == live[|reused|] else conn == next
    ensures UsedInOrder(live, next, reused + [reuse], used + [conn])
  {
  }

  lemma LiveAfter(idle: seq<Idle>, k: nat)
    requires k <= |idle|
    ensures k < |idle| ==> idle[k..] != [] && idle[k..][0] == idle[k] && idle[k..][1..] == idle[k + 1..]
  {
  }
}
