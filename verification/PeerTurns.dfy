/** The peer of one send: an arbitrary sequence of turns that move the flow-control
    windows between any two critical sections, with the account of every change. */
module PeerTurns {
  import opened Sequences
  import opened FlowControl
  import opened Ledger

  datatype PeerEvent = ConnectionCredit(n: int) | StreamCredit(sid: int, n: int) | NewSettings(list: seq<Setting>)

  /** What happens between two critical sections: frames from the peer, and whether
      a reset, a read failure or a cancellation has ended the send. */
  datatype Turn = Turn(events: seq<PeerEvent>, failed: bool)

  predicate ValidEvent(e: PeerEvent) {
    match e
    case ConnectionCredit(n) => 0 <= n <= MAX_WINDOW
    case StreamCredit(_, n) => 0 <= n <= MAX_WINDOW
    case NewSettings(list) => forall s <- list :: 0 <= s.val < 0x1_0000_0000
  }

  function BalanceOf(flow: Flow): Balance
    reads flow.peer, flow.stream
  {
    Balance(flow.peer.sendWindow, flow.stream[..])
  }

  /** The windows have room for the frame, and its settings are legal. */
  predicate Accepts(ids: seq<int>, b: Balance, settings: Settings, e: PeerEvent)
    requires |ids| == |b.stream|
  {
    match e
    case ConnectionCredit(n) => b.window + n <= MAX_WINDOW
    case StreamCredit(sid, n) =>
      var i := IndexOf(ids, sid);
      i == |ids| || b.stream[i] + n <= MAX_WINDOW
    case NewSettings(list) =>
      (forall s <- list :: Legal(s)) && CanShift(b.stream, Delta(list, settings))
  }

  /** How much the settings shift every stream window. */
  function Delta(list: seq<Setting>, settings: Settings): int { Last(list, settings).window - settings.window }

  /** What an accepted frame enters into the account. */
  function Effect(ids: seq<int>, settings: Settings, e: PeerEvent): (r: seq<Entry>)
    ensures |r| <= 1 && forall x <- r :: !x.Debit?
  {
    match e
    case ConnectionCredit(n) => [ConnectionGain(n)]
    case StreamCredit(sid, n) =>
      var i := IndexOf(ids, sid);
      if i < |ids| then [StreamGain(i, n)] else []
    case NewSettings(list) => [Shift(Delta(list, settings))]
  }

  function SettingsAfter(settings: Settings, e: PeerEvent): Settings {
    if e.NewSettings? then Last(e.list, settings) else settings
  }

  function BalanceAfter(ids: seq<int>, b: Balance, settings: Settings, e: PeerEvent): (r: Balance)
    ensures |r.stream| == |b.stream|
  {
    var effect := Effect(ids, settings, e);
    if effect == [] then b else After(b, effect[0])
  }

  /** Every frame is accepted when it comes. */
  predicate Deliverable(ids: seq<int>, b: Balance, settings: Settings, events: seq<PeerEvent>)
    requires |ids| == |b.stream|
    decreases |events|
  {
    events == [] ||
    (&& Accepts(ids, b, settings, events[0])
     && Deliverable(ids, BalanceAfter(ids, b, settings, events[0]), SettingsAfter(settings, events[0]), events[1..]))
  }

  /** The send was ended from outside. */
  predicate Ended(trace: seq<Entry>) { trace != [] && trace[|trace| - 1].End? }

  lemma AppendPeer(trace: seq<Entry>, more: seq<Entry>)
    requires |more| <= 1 && forall x <- more :: !x.Debit?
    ensures Spent(trace + more) == Spent(trace)
  {
    if more == [] {
      assert trace + more == trace;
    } else {
      AppendTotals(trace, more[0]);
      assert trace + more == trace + [more[0]];
    }
  }

  /** The peer's whole future, one turn per interleaving point, and the account of what
      happened since the windows stood at start. */
  class Environment {
    var turns: seq<Turn>
    ghost const start: Balance
    ghost var trace: seq<Entry>

    constructor (turns: seq<Turn>, flow: Flow)
      requires flow.Valid() && forall t <- turns :: forall e <- t.events :: ValidEvent(e)
      ensures this.turns == turns && start == BalanceOf(flow) && trace == [] && Follows(flow)
    {
      this.turns := turns;
      start := BalanceOf(flow);
      trace := [];
    }

    ghost predicate Valid()
      reads this
    {
      forall t <- turns :: forall e <- t.events :: ValidEvent(e)
    }

    /** The account explains the windows, and no record in it was uncovered. */
    ghost predicate Tracks(flow: Flow)
      reads this, flow.peer, flow.stream
    {
      Sound(start, trace) && Replay(start, trace) == BalanceOf(flow)
    }

    ghost predicate Follows(flow: Flow)
      reads this, flow, flow.peer, flow.stream
    {
      Valid() && flow.Valid() && Tracks(flow)
    }

    ghost method Enter(flow: Flow, e: Entry)
      requires Sound(start, trace) && Payable(Replay(start, trace), e) &&
               BalanceOf(flow) == After(Replay(start, trace), e)
      modifies this`trace
      ensures trace == old(trace) + [e] && Tracks(flow)
      ensures Spent(trace) == Spent(old(trace)) + (if e.Debit? then [e.needs] else [])
      ensures e.Debit? ==> Given(trace) == Given(old(trace))
    {
      AppendEntry(start, trace, e);
      AppendTotals(trace, e);
      trace := trace + [e];
    }

    method DispatchCredit(flow: Flow, n: int) returns (ok: bool)
      requires flow.Valid() && Tracks(flow) && 0 <= n <= MAX_WINDOW
      modifies this`trace, flow`changed, flow.peer`sendWindow
      ensures flow.Valid() && Tracks(flow) && ok == (old(flow.peer.sendWindow) + n <= MAX_WINDOW)
      ensures trace == old(trace) + (if ok then [ConnectionGain(n)] else [])
      ensures ok ==> flow.changed && BalanceOf(flow) == After(old(BalanceOf(flow)), ConnectionGain(n))
    {
      ok := flow.peer.AddConnectionSendCredit(n);
      if ok {
        flow.changed := true;
        Enter(flow, ConnectionGain(n));
      }
    }

    method DispatchStream(flow: Flow, sid: int, n: int) returns (ok: bool)
      requires flow.Valid() && Tracks(flow) && 0 <= n <= MAX_WINDOW
      modifies this`trace, flow`changed, flow.stream
      ensures flow.Valid() && Tracks(flow)
      ensures ok == Accepts(flow.ids, old(BalanceOf(flow)), flow.peer.settings, StreamCredit(sid, n))
      ensures trace == old(trace) + (if ok then Effect(flow.ids, flow.peer.settings, StreamCredit(sid, n)) else [])
      ensures ok && !flow.changed ==> !old(flow.changed) && flow.stream[..] == old(flow.stream[..])
      ensures ok ==>
                BalanceOf(flow) ==
                BalanceAfter(flow.ids, old(BalanceOf(flow)), flow.peer.settings, StreamCredit(sid, n))
    {
      ok := flow.AddStream(sid, n);
      if ok && IndexOf(flow.ids, sid) < |flow.ids| {
        Enter(flow, StreamGain(IndexOf(flow.ids, sid), n));
      }
    }

    method DispatchSettings(flow: Flow, list: seq<Setting>) returns (ok: bool)
      requires flow.Valid() && Tracks(flow) && ValidEvent(NewSettings(list))
      modifies this`trace, flow`changed, flow.stream, flow.peer
      ensures flow.Valid() && Tracks(flow)
      ensures flow.peer.sendWindow == old(flow.peer.sendWindow)
      ensures var delta := Delta(list, old(flow.peer.settings));
              && ok == ((forall s <- list :: Legal(s)) && CanShift(old(flow.stream[..]), delta))
              && trace == old(trace) + (if ok then [Shift(delta)] else [])
              && (ok ==> flow.stream[..] == Shifted(old(flow.stream[..]), delta))
      ensures ok && !flow.changed ==> !old(flow.changed) && flow.stream[..] == old(flow.stream[..])
      ensures ok ==> flow.peer.settings == Last(list, old(flow.peer.settings))
    {
      var delta := flow.peer.ApplySettingsValues(list);
      ok := delta.Some?;
      if ok {
        ok := flow.ApplyInitDelta(delta.value);
        assert delta.value == 0 ==> Shifted(old(flow.stream[..]), 0) == old(flow.stream[..]);
        if ok {
          Enter(flow, Shift(delta.value));
        }
      }
    }

    /** The read pump handles one frame: it is accepted exactly if the windows have room
        and its settings are legal, and then enters the account. Credit never changes
        without leaving the wake-up token. */
    method Dispatch(flow: Flow, e: PeerEvent) returns (ok: bool)
      requires flow.Valid() && Tracks(flow) && ValidEvent(e)
      modifies this`trace, flow`changed, flow.stream, flow.peer
      ensures flow.Valid() && Tracks(flow)
      ensures ok == Accepts(flow.ids, old(BalanceOf(flow)), old(flow.peer.settings), e)
      ensures trace == old(trace) + (if ok then Effect(flow.ids, old(flow.peer.settings), e) else [])
      ensures ok && !flow.changed ==> !old(flow.changed) && BalanceOf(flow) == old(BalanceOf(flow))
      ensures ok ==>
                && BalanceOf(flow) == BalanceAfter(flow.ids, old(BalanceOf(flow)), old(flow.peer.settings), e)
                && flow.peer.settings == SettingsAfter(old(flow.peer.settings), e)
    {
      match e
      case ConnectionCredit(n) => ok := DispatchCredit(flow, n);
      case StreamCredit(sid, n) => ok := DispatchStream(flow, sid, n);
      case NewSettings(list) => ok := DispatchSettings(flow, list);
    }

    /** The frames of one turn, until one is refused. */
    method DispatchAll(flow: Flow, events: seq<PeerEvent>) returns (ok: bool)
      requires flow.Valid() && Tracks(flow) && forall e <- events :: ValidEvent(e)
      modifies this`trace, flow`changed, flow.stream, flow.peer
      ensures flow.Valid() && Tracks(flow) && Spent(trace) == Spent(old(trace)) && old(trace) <= trace
      ensures ok == Deliverable(flow.ids, old(BalanceOf(flow)), old(flow.peer.settings), events)
      ensures ok && !flow.changed ==> !old(flow.changed) && BalanceOf(flow) == old(BalanceOf(flow))
    {
      for k := 0 to |events|
        invariant flow.Valid() && Tracks(flow) && Spent(trace) == Spent(old(trace)) && old(trace) <= trace
        invariant Deliverable(flow.ids, old(BalanceOf(flow)), old(flow.peer.settings), events) ==
                  Deliverable(flow.ids, BalanceOf(flow), flow.peer.settings, events[k..])
        invariant !flow.changed ==> !old(flow.changed) && BalanceOf(flow) == old(BalanceOf(flow))
      {
        ghost var before, settings := trace, flow.peer.settings;
        assert events[k..][0] == events[k] && events[k..][1..] == events[k + 1..];
        ok := Dispatch(flow, events[k]);
        AppendPeer(before, if ok then Effect(flow.ids, settings, events[k]) else []);
        if !ok {
          return false;
        }
      }
      ok := true;
    }

    /** One interleaving point: the next turn, or silence once the turns are used up. A
        failed turn or a refused frame, and nothing else, ends the send. */
    method Interfere(flow: Flow) returns (alive: bool)
      requires Follows(flow)
      modifies this, flow`changed, flow.stream, flow.peer
      ensures Follows(flow) && Spent(trace) == Spent(old(trace)) && old(trace) <= trace
      ensures turns == if old(turns) == [] then [] else old(turns)[1..]
      ensures alive ==
              (old(turns) == [] ||
               (&& !old(turns)[0].failed
                && Deliverable(flow.ids, old(BalanceOf(flow)), old(flow.peer.settings), old(turns)[0].events)))
      ensures old(turns) == [] ==> flow.changed == old(flow.changed) && trace == old(trace)
      ensures !alive ==> Ended(trace)
      ensures alive && (old(turns) == [] || !flow.changed) ==>
                (old(flow.changed) ==> flow.changed) && BalanceOf(flow) == old(BalanceOf(flow))
    {
      if turns == [] {
        return true;
      }
      var turn := turns[0];
      turns := turns[1..];
      alive := !turn.failed;
      if alive {
        alive := DispatchAll(flow, turn.events);
      }
      if !alive {
        Enter(flow, End);
      }
    }

    /** Reserves and debits the credit of one record, and enters it. */
    method Reserve(flow: Flow, needs: seq<int>) returns (ok: bool)
      requires Follows(flow) && |needs| == |flow.ids| && Sum(needs) <= MAX_WINDOW
      requires forall i :: 0 <= i < |needs| ==> needs[i] >= 0
      modifies this`trace, flow.peer`sendWindow, flow.stream
      ensures Follows(flow) && ok == CanReserve(old(flow.peer.sendWindow), old(flow.stream[..]), needs)
      ensures Spent(trace) == Spent(old(trace)) + (if ok then [needs] else []) && Given(trace) == Given(old(trace))
      ensures !ok ==> trace == old(trace) && BalanceOf(flow) == old(BalanceOf(flow))
      ensures old(trace) <= trace
      ensures ok ==>
                BalanceOf(flow) == Balance(old(flow.peer.sendWindow) - Sum(needs), Debited(old(flow.stream[..]), needs))
    {
      ok := flow.Reserve(needs);
      if ok {
        Enter(flow, Debit(needs));
      }
    }
  }
}
