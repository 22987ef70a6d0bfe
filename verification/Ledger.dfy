/** The account of one send: every change of the windows in order, what the peer gave
    and what each record cost. */
module Ledger {
  import opened Sequences
  import opened FlowControl
  import opened Records

  /** End: a reset, a cancellation, a read failure or a refused frame. */
  datatype Entry =
    | ConnectionGain(n: int)
    | StreamGain(i: nat, n: int)
    | Shift(delta: int)
    | Debit(needs: seq<int>)
    | End

  datatype Balance = Balance(window: int, stream: seq<int>)

  function After(b: Balance, e: Entry): (r: Balance)
    ensures |r.stream| == |b.stream|
  {
    match e
    case ConnectionGain(n) => b.(window := b.window + n)
    case StreamGain(i, n) => if i < |b.stream| then b.(stream := b.stream[i := b.stream[i] + n]) else b
    case Shift(delta) => b.(stream := Shifted(b.stream, delta))
    case Debit(needs) =>
      if |needs| == |b.stream| then Balance(b.window - Sum(needs), Debited(b.stream, needs)) else b
    case End => b
  }

  function Replay(b: Balance, trace: seq<Entry>): (r: Balance)
    ensures |r.stream| == |b.stream|
  {
    if trace == [] then b else After(Replay(b, trace[..|trace| - 1]), trace[|trace| - 1])
  }

  /** The windows cover this entry. */
  predicate Payable(b: Balance, e: Entry) { e.Debit? ==> CanReserve(b.window, b.stream, e.needs) }

  /** Every record was covered by the windows of the moment it was debited. */
  predicate Sound(b: Balance, trace: seq<Entry>) {
    trace == [] ||
    (Sound(b, trace[..|trace| - 1]) && Payable(Replay(b, trace[..|trace| - 1]), trace[|trace| - 1]))
  }

  lemma AppendEntry(b: Balance, trace: seq<Entry>, e: Entry)
    requires Sound(b, trace) && Payable(Replay(b, trace), e)
    ensures Sound(b, trace + [e]) && Replay(b, trace + [e]) == After(Replay(b, trace), e)
  {
    assert (trace + [e])[..|trace|] == trace;
  }

  // ------------------------------------------------------------ gains and debits

  function ConnectionGained(trace: seq<Entry>): int {
    if trace == [] then 0
    else
      var e := trace[|trace| - 1];
      ConnectionGained(trace[..|trace| - 1]) + if e.ConnectionGain? then e.n else 0
  }

  /** Updates and changes of the initial window, for stream i. */
  function StreamGained(trace: seq<Entry>, i: nat): int {
    if trace == [] then 0
    else
      var e := trace[|trace| - 1];
      StreamGained(trace[..|trace| - 1], i) +
      match e
      case StreamGain(j, n) => if i == j then n else 0
      case Shift(delta) => delta
      case _ => 0
  }

  /** What each record cost, in order. */
  function Spent(trace: seq<Entry>): seq<seq<int>> {
    if trace == [] then []
    else
      var e := trace[|trace| - 1];
      var before := Spent(trace[..|trace| - 1]);
      if e.Debit? then before + [e.needs] else before
  }

  /** The entries of the peer. */
  function Given(trace: seq<Entry>): seq<Entry> {
    if trace == [] then []
    else
      var e := trace[|trace| - 1];
      var before := Given(trace[..|trace| - 1]);
      if e.Debit? then before else before + [e]
  }

  lemma AppendTotals(trace: seq<Entry>, e: Entry)
    ensures Spent(trace + [e]) == Spent(trace) + if e.Debit? then [e.needs] else []
    ensures Given(trace + [e]) == Given(trace) + if e.Debit? then [] else [e]
  {
    assert (trace + [e])[..|trace|] == trace;
  }

  /** What the peer gave depends on its entries alone. */
  lemma {:induction false} GainedByPeer(trace: seq<Entry>, i: nat)
    ensures ConnectionGained(trace) == ConnectionGained(Given(trace)) &&
            StreamGained(trace, i) == StreamGained(Given(trace), i)
  {
    if trace != [] {
      var n := |trace| - 1;
      GainedByPeer(trace[..n], i);
      var given := Given(trace[..n]);
      assert (given + [trace[n]])[..|given|] == given;
    }
  }

  lemma GivenIsGained(t: seq<Entry>, u: seq<Entry>)
    requires Given(u) == Given(t)
    ensures ConnectionGained(u) == ConnectionGained(t) && forall i: nat :: StreamGained(u, i) == StreamGained(t, i)
  {
    forall i: nat
      ensures ConnectionGained(u) == ConnectionGained(t) && StreamGained(u, i) == StreamGained(t, i)
    {
      GainedByPeer(t, i);
      GainedByPeer(u, i);
    }
    GainedByPeer(t, 0);
    GainedByPeer(u, 0);
  }

  function SpentInAll(spent: seq<seq<int>>): int {
    if spent == [] then 0 else SpentInAll(spent[..|spent| - 1]) + Sum(spent[|spent| - 1])
  }

  function SpentOn(spent: seq<seq<int>>, i: nat): int {
    if spent == [] then 0
    else
      var last := spent[|spent| - 1];
      SpentOn(spent[..|spent| - 1], i) + if i < |last| then last[i] else 0
  }

  lemma {:induction false} SpentAdds(a: seq<seq<int>>, b: seq<seq<int>>, i: nat)
    ensures SpentInAll(a + b) == SpentInAll(a) + SpentInAll(b)
    ensures SpentOn(a + b, i) == SpentOn(a, i) + SpentOn(b, i)
  {
    if b == [] {
      assert a + b == a;
    } else {
      SpentAdds(a, b[..|b| - 1], i);
      assert (a + b)[..|a + b| - 1] == a + b[..|b| - 1];
    }
  }

  predicate AllWide(trace: seq<Entry>, n: nat) {
    forall k :: 0 <= k < |trace| && trace[k].Debit? ==> |trace[k].needs| == n
  }

  lemma {:induction false} SoundIsWide(b: Balance, trace: seq<Entry>)
    requires Sound(b, trace)
    ensures AllWide(trace, |b.stream|)
  {
    if trace != [] {
      var n := |trace| - 1;
      SoundIsWide(b, trace[..n]);
      assert forall k :: 0 <= k < n ==> trace[k] == trace[..n][k];
    }
  }

  lemma ConservedStep(b: Balance, trace: seq<Entry>, i: nat)
    requires trace != [] && (trace[|trace| - 1].Debit? ==> |trace[|trace| - 1].needs| == |b.stream|)
    ensures var front := trace[..|trace| - 1];
            && Replay(b, trace).window - Replay(b, front).window ==
               ConnectionGained(trace) - ConnectionGained(front) - (SpentInAll(Spent(trace)) - SpentInAll(Spent(front)))
            && (i < |b.stream| ==>
                  Replay(b, trace).stream[i] - Replay(b, front).stream[i] ==
                  StreamGained(trace, i) - StreamGained(front, i) -
                  (SpentOn(Spent(trace), i) - SpentOn(Spent(front), i)))
  {
    var front, e := trace[..|trace| - 1], trace[|trace| - 1];
    if e.Debit? {
      assert Spent(trace)[..|Spent(front)|] == Spent(front);
    } else {
      assert Spent(trace) == Spent(front);
    }
  }

  /** Conservation: a window is what it was, plus what the peer gave, minus what the
      records cost. */
  lemma {:induction false} Conserved(b: Balance, trace: seq<Entry>, i: nat)
    requires AllWide(trace, |b.stream|)
    ensures Replay(b, trace).window == b.window + ConnectionGained(trace) - SpentInAll(Spent(trace))
    ensures i < |b.stream| ==>
              Replay(b, trace).stream[i] == b.stream[i] + StreamGained(trace, i) - SpentOn(Spent(trace), i)
  {
    if trace != [] {
      Conserved(b, trace[..|trace| - 1], i);
      ConservedStep(b, trace, i);
    }
  }

  // -------------------------------------------------------- records and their cost

  /** The bytes of each of n streams in a record. */
  function Cost(r: Record, n: nat): (c: seq<int>)
    ensures |c| == n
  {
    seq(n, i requires 0 <= i < n => |PayloadOf(r, i)|)
  }

  function Costs(records: seq<Record>, n: nat): (c: seq<seq<int>>)
    ensures |c| == |records|
  {
    if records == [] then [] else Costs(records[..|records| - 1], n) + [Cost(records[|records| - 1], n)]
  }

  /** Exactly these records were debited after the debits of base. */
  predicate Settled(base: seq<seq<int>>, spent: seq<seq<int>>, records: seq<Record>, n: nat) {
    spent == base + Costs(records, n)
  }

  /** The same, but for at most one record that was debited and never flushed. */
  predicate SettledButOne(base: seq<seq<int>>, spent: seq<seq<int>>, records: seq<Record>, n: nat) {
    base + Costs(records, n) <= spent && |spent| <= |base| + |records| + 1
  }

  lemma SettleOne(base: seq<seq<int>>, spent: seq<seq<int>>, records: seq<Record>, n: nat, r: Record)
    requires Settled(base, spent, records, n)
    ensures Settled(base, spent + [Cost(r, n)], records + [r], n)
    ensures SettledButOne(base, spent, records, n) && SettledButOne(base, spent + [Cost(r, n)], records, n)
  {
    assert (records + [r])[..|records|] == records;
  }

  /** The debits of records are the bytes they deliver. */
  lemma {:induction false} CostsDeliver(records: seq<Record>, n: nat, i: nat)
    requires i < n
    ensures SpentOn(Costs(records, n), i) == |Delivered(records, i)|
  {
    if records != [] {
      var m := |records| - 1;
      CostsDeliver(records[..m], n, i);
      DeliveredAppend(records[..m], records[m], i);
      assert records == records[..m] + [records[m]];
      assert Costs(records, n)[..m] == Costs(records[..m], n);
    }
  }

  lemma {:induction false} CostsTotal(records: seq<Record>, n: nat)
    ensures SpentInAll(Costs(records, n)) == Sum(DeliveredSizes(records, n))
  {
    if records == [] {
      SumZero(DeliveredSizes(records, n));
    } else {
      var m := |records| - 1;
      CostsTotal(records[..m], n);
      assert Costs(records, n)[..m] == Costs(records[..m], n);
      SizesAdd(records[..m], records[m], n);
      assert records == records[..m] + [records[m]];
    }
  }

  lemma SizesAdd(records: seq<Record>, r: Record, n: nat)
    ensures Sum(DeliveredSizes(records + [r], n)) == Sum(DeliveredSizes(records, n)) + Sum(Cost(r, n))
  {
    var x, y, z := DeliveredSizes(records, n), Cost(r, n), DeliveredSizes(records + [r], n);
    forall i | 0 <= i < n
      ensures z[i] == x[i] + y[i]
    {
      DeliveredAppend(records, r, i);
    }
    SumAdds(x, y, z);
  }

  /** Between two moments of an account: the windows are what they were, plus what the
      peer gave, minus what was sent. */
  ghost predicate Accounted(t: seq<Entry>, b: Balance, t': seq<Entry>, b': Balance, sent: seq<int>) {
    && |sent| == |b.stream| == |b'.stream|
    && b'.window == b.window + ConnectionGained(t') - ConnectionGained(t) - Sum(sent)
    && forall i :: 0 <= i < |sent| ==> b'.stream[i] == b.stream[i] + StreamGained(t', i) - StreamGained(t, i) - sent[i]
  }

  /** A settled send is accounted for, byte by byte. */
  lemma SettledIsAccounted(start: Balance, t: seq<Entry>, t': seq<Entry>, records: seq<Record>, n: nat)
    requires Sound(start, t) && Sound(start, t') && n == |start.stream|
    requires Settled(Spent(t), Spent(t'), records, n)
    ensures Accounted(t, Replay(start, t), t', Replay(start, t'), DeliveredSizes(records, n))
  {
    SoundIsWide(start, t);
    SoundIsWide(start, t');
    CostsTotal(records, n);
    var sent := DeliveredSizes(records, n);
    SpentAdds(Spent(t), Costs(records, n), 0);
    Conserved(start, t, 0);
    Conserved(start, t', 0);
    forall i | 0 <= i < n
      ensures Replay(start, t').stream[i] == Replay(start, t).stream[i] +
              StreamGained(t', i) - StreamGained(t, i) - sent[i]
    {
      SpentAdds(Spent(t), Costs(records, n), i);
      CostsDeliver(records, n, i);
      Conserved(start, t, i);
      Conserved(start, t', i);
    }
  }
}
