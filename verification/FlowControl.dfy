/** HTTP/2 send credit: the in-place operations on the windows of a peer and of one
    batch. */
module FlowControl {
  import opened Sequences

  const MAX_WINDOW := 0x7fff_ffff
  const MIN_INT32 := -0x8000_0000
  const DEFAULT_WINDOW := 65535
  const DEFAULT_MAX_FRAME := 0x4000
  const MAX_MAX_FRAME := 0xff_ffff
  const UNLIMITED_STREAMS := 0x1_0000_0000

  predicate IsInt32(x: int) { MIN_INT32 <= x <= MAX_WINDOW }

  function Min(a: int, b: int): int { if a < b then a else b }

  function Max(a: int, b: int): int { if a < b then b else a }

  // ---------------------------------------------------------------- windows

  function Debited(stream: seq<int>, needs: seq<int>): (r: seq<int>)
    requires |stream| == |needs|
  {
    seq(|stream|, i requires 0 <= i < |stream| => stream[i] - needs[i])
  }

  function Shifted(stream: seq<int>, delta: int): (r: seq<int>) {
    seq(|stream|, i requires 0 <= i < |stream| => stream[i] + delta)
  }

  /** Position of the first occurrence of sid, or |ids|. */
  function IndexOf(ids: seq<int>, sid: int): (i: nat)
    ensures i <= |ids| && sid !in ids[..i]
    ensures i < |ids| ==> ids[i] == sid
  {
    if ids == [] then 0
    else if ids[0] == sid then 0
    else
      var rest := IndexOf(ids[1..], sid);
      assert ids[..rest + 1] == [ids[0]] + ids[1..][..rest];
      rest + 1
  }

  predicate CanReserve(window: int, stream: seq<int>, needs: seq<int>) {
    && |needs| == |stream|
    && Sum(needs) <= window
    && forall i :: 0 <= i < |needs| && needs[i] > 0 ==> needs[i] <= stream[i]
  }

  predicate CanShift(stream: seq<int>, delta: int) {
    forall i :: 0 <= i < |stream| ==> IsInt32(stream[i] + delta)
  }

  // --------------------------------------------------------------- settings

  datatype Setting = InitialWindowSize(val: int) | MaxFrameSize(val: int)
                   | MaxConcurrentStreams(val: int) | OtherSetting(val: int)

  datatype Settings = Settings(window: int, frame: int, streams: int)

  predicate Legal(s: Setting) {
    && (s.InitialWindowSize? ==> s.val <= MAX_WINDOW)
    && (s.MaxFrameSize? ==> DEFAULT_MAX_FRAME <= s.val <= MAX_MAX_FRAME)
  }

  /** The value a SETTINGS frame leaves: for each parameter, its last occurrence. */
  function Last(list: seq<Setting>, was: Settings): Settings {
    if list == [] then was
    else
      var before := Last(list[..|list| - 1], was);
      match list[|list| - 1]
      case InitialWindowSize(v) => before.(window := v)
      case MaxFrameSize(v) => before.(frame := v)
      case MaxConcurrentStreams(v) => before.(streams := v)
      case OtherSetting(_) => before
  }

  datatype Parameter = Window | Frame | Streams

  predicate Sets(s: Setting, p: Parameter) {
    match p
    case Window => s.InitialWindowSize?
    case Frame => s.MaxFrameSize?
    case Streams => s.MaxConcurrentStreams?
  }

  function ValueOf(s: Settings, p: Parameter): int {
    match p
    case Window => s.window
    case Frame => s.frame
    case Streams => s.streams
  }

  /** Entry k of the list is the last one for parameter p. */
  ghost predicate LastFor(list: seq<Setting>, p: Parameter, k: int) {
    0 <= k < |list| && Sets(list[k], p) && forall j :: k < j < |list| ==> !Sets(list[j], p)
  }

  /** Each parameter has the value of the last entry for it, and without one its old value. */
  ghost predicate Published(list: seq<Setting>, was: Settings, now: Settings) {
    forall p: Parameter ::
      && (forall k :: LastFor(list, p, k) ==> ValueOf(now, p) == list[k].val)
      && ((forall j :: 0 <= j < |list| ==> !Sets(list[j], p)) ==> ValueOf(now, p) == ValueOf(was, p))
  }

  lemma {:induction false} LastIsPublished(list: seq<Setting>, was: Settings)
    ensures Published(list, was, Last(list, was))
  {
    if list != [] {
      var n := |list| - 1;
      LastIsPublished(list[..n], was);
      forall p: Parameter
        ensures forall k :: LastFor(list, p, k) ==> ValueOf(Last(list, was), p) == list[k].val
        ensures (forall j :: 0 <= j < |list| ==> !Sets(list[j], p)) ==> ValueOf(Last(list, was), p) == ValueOf(was, p)
      {
        LastForShorter(list, p);
        assert forall j :: 0 <= j < n ==> list[..n][j] == list[j];
        assert ValueOf(Last(list, was), p) ==
               if Sets(list[n], p) then list[n].val else ValueOf(Last(list[..n], was), p);
      }
    }
  }

  lemma LastForShorter(list: seq<Setting>, p: Parameter)
    requires list != []
    ensures var n := |list| - 1;
            forall k :: LastFor(list, p, k) ==> if Sets(list[n], p) then k == n else k < n && LastFor(list[..n], p, k)
  {
  }

  // ------------------------------------------------- the mutable structures

  class Peer {
    var sendWindow: int
    var settings: Settings

    constructor ()
      ensures Valid() && sendWindow == DEFAULT_WINDOW
      ensures settings == Settings(DEFAULT_WINDOW, DEFAULT_MAX_FRAME, UNLIMITED_STREAMS)
    {
      sendWindow := DEFAULT_WINDOW;
      settings := Settings(DEFAULT_WINDOW, DEFAULT_MAX_FRAME, UNLIMITED_STREAMS);
    }

    ghost predicate Valid()
      reads this
    {
      && 0 <= sendWindow <= MAX_WINDOW
      && 0 <= settings.window <= MAX_WINDOW
      && DEFAULT_MAX_FRAME <= settings.frame <= MAX_MAX_FRAME
    }

    /** A connection WINDOW_UPDATE; an increment past the cap changes nothing. */
    method AddConnectionSendCredit(increment: int) returns (ok: bool)
      requires Valid() && 0 <= increment <= MAX_WINDOW
      modifies this`sendWindow
      ensures Valid()
      ensures ok == (old(sendWindow) + increment <= MAX_WINDOW)
      ensures sendWindow == old(sendWindow) + if ok then increment else 0
    {
      var updated := sendWindow + increment;
      if updated > MAX_WINDOW {
        return false;
      }
      sendWindow := updated;
      return true;
    }

    /** Validates a whole SETTINGS frame before any of it becomes visible, and
        returns the change of the initial window for existing streams. */
    method ApplySettingsValues(list: seq<Setting>) returns (delta: Option<int>)
      requires Valid()
      requires forall s <- list :: 0 <= s.val < 0x1_0000_0000
      modifies this`settings
      ensures Valid()
      ensures delta.Some? <==> forall s <- list :: Legal(s)
      ensures delta.None? ==> settings == old(settings)
      ensures delta.Some? ==>
                && settings == Last(list, old(settings)) && Published(list, old(settings), settings)
                && delta.value == settings.window - old(settings.window)
                && IsInt32(delta.value)
    {
      var staged := settings;
      for k := 0 to |list|
        invariant settings == old(settings)
        invariant staged == Last(list[..k], old(settings))
        invariant forall s <- list[..k] :: Legal(s)
        invariant 0 <= staged.window <= MAX_WINDOW
        invariant DEFAULT_MAX_FRAME <= staged.frame <= MAX_MAX_FRAME
      {
        assert list[..k + 1] == list[..k] + [list[k]];
        assert list[k] in list;
        match list[k]
        case InitialWindowSize(v) =>
          if v > MAX_WINDOW {
            return None;
          }
          staged := staged.(window := v);
        case MaxFrameSize(v) =>
          if v < DEFAULT_MAX_FRAME || v > MAX_MAX_FRAME {
            return None;
          }
          staged := staged.(frame := v);
        case MaxConcurrentStreams(v) =>
          staged := staged.(streams := v);
        case OtherSetting(_) =>
      }
      assert list[..|list|] == list;
      LastIsPublished(list, settings);
      delta := Some(staged.window - settings.window);
      settings := staged;
    }
  }

  class Flow {
    const peer: Peer
    const ids: seq<int>
    const stream: array<int>
    /** The wake-up token of a sender waiting for credit, at most one. */
    var changed: bool

    constructor (peer: Peer, ids: seq<int>)
      requires peer.Valid()
      ensures this.peer == peer && this.ids == ids && fresh(stream) && !changed
      ensures Valid()
      ensures forall i :: 0 <= i < |ids| ==> stream[i] == peer.settings.window
    {
      this.peer := peer;
      this.ids := ids;
      var window := peer.settings.window;
      stream := new int[|ids|](_ => window);
      changed := false;
    }

    ghost predicate Valid()
      reads this, peer, stream
    {
      && peer.Valid()
      && stream.Length == |ids|
      && forall i :: 0 <= i < stream.Length ==> IsInt32(stream[i])
    }

    /** Debits up to want bytes for one stream, as far as the frame size and both
        windows allow; zero means that some window is exhausted. */
    method Take(idx: nat, want: int) returns (taken: int)
      requires Valid() && idx < stream.Length
      modifies peer`sendWindow, stream
      ensures Valid() && peer.sendWindow == old(peer.sendWindow) - taken
      ensures taken == Max(0, Min(want, Min(peer.settings.frame, Min(old(peer.sendWindow), old(stream[idx])))))
      ensures stream[..] == old(stream[..])[idx := old(stream[idx]) - taken]
    {
      var avail := Min(want, peer.settings.frame);
      if peer.sendWindow < avail {
        avail := peer.sendWindow;
      }
      if stream[idx] < avail {
        avail := stream[idx];
      }
      if avail <= 0 {
        return 0;
      }
      peer.sendWindow := peer.sendWindow - avail;
      stream[idx] := stream[idx] - avail;
      return avail;
    }

    /** Checks and debits the credit of one whole record, or debits nothing. */
    method Reserve(needs: seq<int>) returns (ok: bool)
      requires Valid() && |needs| == stream.Length
      requires forall i :: 0 <= i < |needs| ==> needs[i] >= 0
      requires Sum(needs) <= MAX_WINDOW
      modifies peer`sendWindow, stream
      ensures Valid()
      ensures ok == CanReserve(old(peer.sendWindow), old(stream[..]), needs)
      ensures ok ==> stream[..] == Debited(old(stream[..]), needs)
      ensures ok ==> peer.sendWindow == old(peer.sendWindow) - Sum(needs)
      ensures !ok ==> stream[..] == old(stream[..]) && peer.sendWindow == old(peer.sendWindow)
    {
      ghost var was := stream[..];
      var total := 0;
      for i := 0 to |needs|
        invariant stream[..] == was && peer.sendWindow == old(peer.sendWindow)
        invariant total == Sum(needs[..i]) && total >= 0
        invariant forall k :: 0 <= k < i && needs[k] > 0 ==> needs[k] <= was[k]
      {
        SumPrefix(needs, i);
        if needs[i] > 0 {
          if stream[i] < needs[i] {
            return false;
          }
          total := total + needs[i];
        }
      }
      SumAll(needs);
      if peer.sendWindow < total {
        return false;
      }
      for i := 0 to |needs|
        invariant forall k :: 0 <= k < i ==> stream[k] == was[k] - needs[k]
        invariant forall k :: i <= k < stream.Length ==> stream[k] == was[k]
        invariant peer.sendWindow == old(peer.sendWindow)
      {
        stream[i] := stream[i] - needs[i];
      }
      peer.sendWindow := peer.sendWindow - total;
      return true;
    }

    /** A stream WINDOW_UPDATE; an identifier outside the batch is dropped. */
    method AddStream(sid: int, n: int) returns (ok: bool)
      requires Valid() && 0 <= n <= MAX_WINDOW
      modifies stream, this`changed
      ensures Valid()
      ensures var i := IndexOf(ids, sid);
              && ok == (i == |ids| || old(stream[i]) + n <= MAX_WINDOW)
              && changed == (old(changed) || (ok && i < |ids|))
              && stream[..] == if ok && i < |ids| then old(stream[..])[i := old(stream[i]) + n] else old(stream[..])
    {
      for i := 0 to |ids|
        invariant sid !in ids[..i]
        invariant stream[..] == old(stream[..]) && changed == old(changed)
      {
        if ids[i] == sid {
          assert IndexOf(ids, sid) == i;
          if stream[i] + n > MAX_WINDOW {
            return false;
          }
          stream[i] := stream[i] + n;
          changed := true;
          return true;
        }
      }
      assert ids[..|ids|] == ids;
      return true;
    }

    /** A change of the peer's initial window reaches all streams or none. */
    method ApplyInitDelta(delta: int) returns (ok: bool)
      requires Valid() && IsInt32(delta)
      modifies stream, this`changed
      ensures Valid()
      ensures changed == (old(changed) || (ok && delta != 0))
      ensures ok == CanShift(old(stream[..]), delta)
      ensures stream[..] == if ok then Shifted(old(stream[..]), delta) else old(stream[..])
    {
      ghost var was := stream[..];
      if delta == 0 {
        assert Shifted(was, 0) == was;
        return true;
      }
      for i := 0 to stream.Length
        invariant stream[..] == was && changed == old(changed)
        invariant forall k :: 0 <= k < i ==> IsInt32(was[k] + delta)
      {
        if !IsInt32(stream[i] + delta) {
          assert !IsInt32(was[i] + delta);
          return false;
        }
      }
      for i := 0 to stream.Length
        invariant forall k :: 0 <= k < i ==> stream[k] == was[k] + delta
        invariant forall k :: i <= k < stream.Length ==> stream[k] == was[k]
        invariant changed == old(changed)
      {
        stream[i] := stream[i] + delta;
      }
      changed := true;
      return true;
    }
  }
}
