/** The measurement object: it observes trials one by one, finishes, and reconciles. */
module MeasureRun {
  import opened MapTotals
  import opened Sequences
  import opened Perms
  import opened Arrangement
  import opened Tally
  import opened Counts
  import opened Measurement
  import opened TrialCounts
  import opened Collector

  ghost predicate Shapes(cycles: map<int, Cycle>, n: nat) { forall id :: id in cycles ==> CycleShape(cycles[id], n) }

  ghost predicate CycleBooks(policy: Policy, n: nat, retained: int, excluded: int, cycles: map<int, Cycle>,
                             begun: int, kept: int, dropped: int) {
    if policy.Rotate? then retained == n * kept && begun == kept + dropped + |cycles|
    else cycles == map[] && excluded == 0
  }

  /** If all trials so far followed the rotations of bases, every request has been in
      every position equally often. */
  ghost predicate Design(followed: bool, evidence: Evidence, n: nat, kept: int, cycles: map<int, Cycle>,
                         bases: map<int, seq<int>>) {
    followed ==> Uniform(evidence.assignments, n, kept) && AllRotating(cycles, bases, n)
  }

  lemma DropCycle(cycles: map<int, Cycle>, id: int)
    requires id in cycles
    ensures |cycles - {id}| == |cycles| - 1
  {
    assert (cycles - {id}).Keys == cycles.Keys - {id};
  }

  lemma PutCycle(cycles: map<int, Cycle>, id: int, c: Cycle)
    ensures |cycles[id := c]| == |cycles| + if id in cycles then 0 else 1
  {
    assert cycles[id := c].Keys == cycles.Keys + {id};
    if id in cycles {
      assert cycles[id := c].Keys == cycles.Keys;
    }
  }

  lemma CyclesLeave(cycles: map<int, Cycle>, id: int, n: nat, followed: bool, bases: map<int, seq<int>>)
    requires Shapes(cycles, n) && (followed ==> AllRotating(cycles, bases, n))
    ensures Shapes(cycles - {id}, n) && (followed ==> AllRotating(cycles - {id}, bases, n))
  {
  }

  ghost predicate RotatesOn(c: Cycle, base: seq<int>, n: nat) { |base| == n && IsPerm(base) && Rotating(c, base, n) }

  /** Adds the evidence of a whole cycle. */
  method Commit(evidence: Evidence, c: Cycle, n: nat, retained: nat, ghost kept: nat, ghost followed: bool,
                ghost base: seq<int>)
    returns (after: Evidence, count: nat)
    requires Consistent(evidence, n, retained) && CycleShape(c, n) && Whole(c, n)
    requires followed ==> Uniform(evidence.assignments, n, kept) && RotatesOn(c, base, n)
    ensures count == retained + n && Consistent(after, n, count) && Joined(evidence, c.evidence, n, after)
    ensures followed ==> Uniform(after.assignments, n, kept + 1)
  {
    count := retained + n;
    after := AddEvidence(evidence, c.evidence, n, retained, n);
    if followed {
      WholeIsUniform(c, base, n);
      UniformAdds(evidence.assignments, c.evidence.assignments, n, after.assignments, kept, 1);
    }
  }

  /** The counters of a run, its open cycles and its committed evidence. */
  datatype Books = Books(attempted: nat, complete: nat, incomplete: nat, retained: nat, excluded: nat,
                           cyclesBegun: nat, cyclesKept: nat, cyclesDropped: nat, cycles: map<int, Cycle>,
                           evidence: Evidence)

  function Blank(n: nat): Books { Books(0, 0, 0, 0, 0, 0, 0, 0, map[], NoEvidence(n)) }

  /** The promise of the trial driver: if followed, all trials so far were rotations of
      the bases of their cycles. */
  datatype Promise = Promise(followed: bool, bases: map<int, seq<int>>)

  ghost predicate BooksOk(l: Books, policy: Policy, n: nat, d: Promise) {
    Consistent(l.evidence, n, l.retained) && CountersOk(l, policy, n, d)
  }

  ghost predicate CountersOk(l: Books, policy: Policy, n: nat, d: Promise) {
    && Sums(l, policy, n) && Shapes(l.cycles, n)
    && (policy.Rotate? ==> Design(d.followed, l.evidence, n, l.cyclesKept, l.cycles, d.bases))
  }

  ghost predicate Sums(l: Books, policy: Policy, n: nat) {
    && l.complete == l.retained + l.excluded + Total(CompleteOf(l.cycles)) && l.complete + l.incomplete <= l.attempted
    && CycleBooks(policy, n, l.retained, l.excluded, l.cycles, l.cyclesBegun, l.cyclesKept, l.cyclesDropped)
  }

  lemma BlankOk(policy: Policy, n: nat, bases: map<int, seq<int>>)
    ensures BooksOk(Blank(n), policy, n, Promise(true, bases))
  {
    NoEvidenceConsistent(n);
    assert CompleteOf(map[]) == map[];
  }

  lemma BlankTells(n: nat)
    ensures Tells(NoEvidence(n), 0, map[], Story([], map[]), n)
  {
    NothingTotals(n);
  }

  predicate Empty(l: Books) {
    l.attempted == l.complete == l.incomplete == l.retained == l.excluded == 0 && l.cycles == map[]
  }

  method Open(policy: Policy, n: nat, ghost bases: map<int, seq<int>>) returns (l: Books)
    ensures RunOk(l, policy, n, Promise(true, bases), Story([], map[])) && Empty(l)
  {
    BlankOk(policy, n, bases);
    BlankTells(n);
    l := Blank(n);
  }

  function Excluded(l: Books, id: int): Books
    requires id in l.cycles
  {
    l.(excluded := l.excluded + l.cycles[id].completeTrials, cyclesDropped := l.cyclesDropped + 1,
       cycles := l.cycles - {id})
  }

  function Committed(l: Books, id: int, count: nat, evidence: Evidence): Books {
    l.(evidence := evidence, retained := count, cyclesKept := l.cyclesKept + 1, cycles := l.cycles - {id})
  }

  lemma ExcludedOk(l: Books, id: int, n: nat, d: Promise)
    requires BooksOk(l, Rotate, n, d) && id in l.cycles
    ensures BooksOk(Excluded(l, id), Rotate, n, d)
  {
    CompleteWithout(l.cycles, id);
    DropCycle(l.cycles, id);
    CyclesLeave(l.cycles, id, n, d.followed, d.bases);
  }

  lemma CycleBooksGrow(n: nat, retained: nat, cycles: map<int, Cycle>, id: int, begun: nat, kept: nat, dropped: nat,
                       excluded: nat)
    requires CycleBooks(Rotate, n, retained, excluded, cycles, begun, kept, dropped) && |cycles - {id}| == |cycles| - 1
    ensures CycleBooks(Rotate, n, retained + n, excluded, cycles - {id}, begun, kept + 1, dropped)
  {
    assert n * (kept + 1) == n * kept + n;
  }

  lemma CommittedOk(l: Books, id: int, n: nat, d: Promise, evidence: Evidence, count: nat)
    requires count == l.retained + n && CountersOk(l, Rotate, n, d) && id in l.cycles && Whole(l.cycles[id], n)
    requires d.followed ==> Uniform(evidence.assignments, n, l.cyclesKept + 1)
    ensures CountersOk(Committed(l, id, count, evidence), Rotate, n, d)
  {
    CommittedSums(l, id, n, evidence, count);
    CyclesLeave(l.cycles, id, n, d.followed, d.bases);
    DesignGrows(d.followed, evidence, n, l.cyclesKept, l.cycles, id, d.bases);
  }

  lemma CommittedSums(l: Books, id: int, n: nat, evidence: Evidence, count: nat)
    requires Sums(l, Rotate, n) && id in l.cycles && l.cycles[id].completeTrials == n && count == l.retained + n
    ensures Sums(Committed(l, id, count, evidence), Rotate, n)
  {
    CompleteWithout(l.cycles, id);
    DropCycle(l.cycles, id);
    CycleBooksGrow(n, l.retained, l.cycles, id, l.cyclesBegun, l.cyclesKept, l.cyclesDropped, l.excluded);
  }

  lemma DesignGrows(followed: bool, evidence: Evidence, n: nat, kept: nat, cycles: map<int, Cycle>, id: int,
                    bases: map<int, seq<int>>)
    requires followed ==> Uniform(evidence.assignments, n, kept + 1) && AllRotating(cycles - {id}, bases, n)
    ensures Design(followed, evidence, n, kept + 1, cycles - {id}, bases)
  {
  }

  lemma ReadyToCommit(l: Books, id: int, n: nat, d: Promise)
    requires CountersOk(l, Rotate, n, d) && id in l.cycles
    ensures CycleShape(l.cycles[id], n)
    ensures d.followed ==>
              Uniform(l.evidence.assignments, n, l.cyclesKept) && id in d.bases &&
              RotatesOn(l.cycles[id], d.bases[id], n)
  {
  }

  /** Commits a whole cycle. */
  method Keep(l: Books, id: int, n: nat, ghost d: Promise) returns (after: Books)
    requires BooksOk(l, Rotate, n, d) && id in l.cycles && Whole(l.cycles[id], n)
    ensures BooksOk(after, Rotate, n, d)
    ensures after == Committed(l, id, l.retained + n, after.evidence) &&
            Joined(l.evidence, l.cycles[id].evidence, n, after.evidence)
  {
    ReadyToCommit(l, id, n, d);
    var evidence, count := Commit(l.evidence, l.cycles[id], n, l.retained, l.cyclesKept, d.followed,
                                  if d.followed then d.bases[id] else []);
    CommittedOk(l, id, n, d, evidence, count);
    after := Committed(l, id, count, evidence);
  }

  /** Commits a whole cycle, or excludes the complete trials of any other. */
  method Finalise(l: Books, id: int, n: nat, ghost d: Promise) returns (after: Books)
    requires BooksOk(l, Rotate, n, d) && id in l.cycles
    ensures BooksOk(after, Rotate, n, d)
    ensures if Whole(l.cycles[id], n) then
              after == Committed(l, id, l.retained + n, after.evidence) &&
              Joined(l.evidence, l.cycles[id].evidence, n, after.evidence)
            else after == Excluded(l, id)
  {
    if Whole(l.cycles[id], n) {
      after := Keep(l, id, n, d);
    } else {
      ExcludedOk(l, id, n, d);
      after := Excluded(l, id);
    }
  }

  // ------------------------------------------------------------ the trials kept

  /** kept are the trials that count, open the trials of each cycle still under way. */
  datatype Story = Story(kept: seq<Observation>, open: map<int, seq<Observation>>)

  function TrialsOf(s: Story, id: int): seq<Observation> { if id in s.open then s.open[id] else [] }

  /** A cycle ends: its trials are kept if there is one for each shift and none failed. */
  function Closed(s: Story, id: int, n: nat): Story {
    var ts := TrialsOf(s, id);
    Story(if |ts| == n && !Spoilt(ts, n) then s.kept + ts else s.kept, s.open - {id})
  }

  /** A cycle ends when it has all its trials. */
  function Ripe(s: Story, id: int, n: nat): Story { if |TrialsOf(s, id)| == n then Closed(s, id, n) else s }

  function Begun(s: Story, t: Observation): Story { s.(open := s.open[t.cycle := TrialsOf(s, t.cycle) + [t]]) }

  /** What one measured trial adds to the story. */
  function Heard(s: Story, t: Observation, policy: Policy, n: nat): Story {
    if !policy.Rotate? then s.(kept := if t.failed then s.kept else s.kept + [t])
    else Ripe(Begun(s, t), t.cycle, n)
  }

  ghost predicate OpenTells(cycles: map<int, Cycle>, open: map<int, seq<Observation>>, n: nat) {
    open.Keys == cycles.Keys && forall id :: id in cycles ==> CycleTells(cycles[id], open[id], n)
  }

  /** The books are what the story makes of them: their evidence counts exactly the trials
      kept. */
  ghost predicate Tells(evidence: Evidence, retained: nat, cycles: map<int, Cycle>, s: Story, n: nat) {
    && Totals(evidence, s.kept, n) && |s.kept| == retained && OpenTells(cycles, s.open, n)
  }

  lemma BegunTells(l: Books, s: Story, t: Observation, n: nat, c: Cycle)
    requires Tells(l.evidence, l.retained, l.cycles, s, n) && Advanced(CycleOr(l.cycles, t.cycle, n), t, n, c)
    ensures Tells(l.evidence, l.retained, l.cycles[t.cycle := c], Begun(s, t), n)
  {
    OpenBegins(l.cycles, s.open, t, n, c);
  }

  lemma OpenBegins(cycles: map<int, Cycle>, open: map<int, seq<Observation>>, t: Observation, n: nat, c: Cycle)
    requires OpenTells(cycles, open, n) && Advanced(CycleOr(cycles, t.cycle, n), t, n, c)
    ensures OpenTells(cycles[t.cycle := c], open[t.cycle := (if t.cycle in open then open[t.cycle] else []) + [t]], n)
  {
    NewCycleTells(n);
    AdvancedTells(CycleOr(cycles, t.cycle, n), t, n, c, if t.cycle in open then open[t.cycle] else []);
  }

  lemma ClosedTells(l: Books, s: Story, id: int, n: nat, evidence: Evidence)
    requires Tells(l.evidence, l.retained, l.cycles, s, n) && id in l.cycles && CycleShape(l.cycles[id], n)
    requires Whole(l.cycles[id], n) ==> Joined(l.evidence, l.cycles[id].evidence, n, evidence)
    ensures if Whole(l.cycles[id], n) then Tells(evidence, l.retained + n, l.cycles - {id}, Closed(s, id, n), n)
            else Tells(l.evidence, l.retained, l.cycles - {id}, Closed(s, id, n), n)
  {
    WholeTells(l.cycles[id], s.open[id], n);
    if Whole(l.cycles[id], n) {
      JoinTotals(l.evidence, l.cycles[id].evidence, n, evidence, s.kept, s.open[id]);
    }
  }

  // ----------------------------------------------------------------- observations

  /** The trial keeps the driver's promise. */
  ghost predicate Keeps(t: Observation, n: nat, bases: map<int, seq<int>>) {
    t.cycle in bases && FollowsRotation(t, bases[t.cycle], n)
  }

  /** The books of a run and its story so far. */
  ghost predicate RunOk(l: Books, policy: Policy, n: nat, d: Promise, s: Story) {
    BooksOk(l, policy, n, d) && CyclesOpen(l.cycles, n) && Tells(l.evidence, l.retained, l.cycles, s, n)
  }

  /** The promise after a trial that was taken in. */
  ghost function Kept(d: Promise, t: Observation, policy: Policy, n: nat): Promise {
    if policy.Rotate? then d.(followed := d.followed && Keeps(t, n, d.bases)) else d
  }

  /** The books with a cycle opened or advanced by one trial. */
  function WithCycle(l: Books, t: Observation, c: Cycle): Books {
    l.(attempted := l.attempted + 1, complete := l.complete + (if t.failed then 0 else 1),
       incomplete := l.incomplete + (if t.failed then 1 else 0),
       cyclesBegun := l.cyclesBegun + (if t.cycle in l.cycles then 0 else 1), cycles := l.cycles[t.cycle := c])
  }

  function CycleOr(cycles: map<int, Cycle>, id: int, n: nat): Cycle { if id in cycles then cycles[id] else NewCycle(n) }

  lemma CycleJoins(cycles: map<int, Cycle>, t: Observation, n: nat, c: Cycle)
    requires CyclesOpen(cycles, n) && n > 0 && Advanced(CycleOr(cycles, t.cycle, n), t, n, c)
    ensures Shapes(cycles[t.cycle := c], n)
    ensures Total(CompleteOf(cycles[t.cycle := c])) == Total(CompleteOf(cycles)) + if t.failed then 0 else 1
    ensures |cycles[t.cycle := c]| == |cycles| + if t.cycle in cycles then 0 else 1
    ensures forall id :: id in cycles && id != t.cycle ==> cycles[id].received < n
  {
    ShapesJoin(cycles, t, n, c);
    CompleteUpdate(cycles, t.cycle, c);
    PutCycle(cycles, t.cycle, c);
  }

  lemma ShapesJoin(cycles: map<int, Cycle>, t: Observation, n: nat, c: Cycle)
    requires CyclesOpen(cycles, n) && n > 0 && Advanced(CycleOr(cycles, t.cycle, n), t, n, c)
    ensures Shapes(cycles[t.cycle := c], n)
  {
    AdvancedShape(CycleOr(cycles, t.cycle, n), t, n, c);
  }

  lemma CycleRotates(cycles: map<int, Cycle>, t: Observation, n: nat, c: Cycle, bases: map<int, seq<int>>)
    requires Advanced(CycleOr(cycles, t.cycle, n), t, n, c) && AllRotating(cycles, bases, n) && Keeps(t, n, bases)
    ensures AllRotating(cycles[t.cycle := c], bases, n)
  {
    NewCycleRotates(n, bases[t.cycle]);
    AdvancedRotates(CycleOr(cycles, t.cycle, n), t, n, c, bases[t.cycle]);
  }

  lemma WithCycleOk(l: Books, t: Observation, n: nat, c: Cycle, d: Promise)
    requires BooksOk(l, Rotate, n, d) && CyclesOpen(l.cycles, n) && n > 0
    requires Advanced(CycleOr(l.cycles, t.cycle, n), t, n, c)
    ensures BooksOk(WithCycle(l, t, c), Rotate, n, Kept(d, t, Rotate, n))
  {
    CycleJoins(l.cycles, t, n, c);
    if d.followed && Keeps(t, n, d.bases) {
      CycleRotates(l.cycles, t, n, c, d.bases);
    }
  }

  /** Only this cycle may have received all its trials. */
  ghost predicate OpenExcept(cycles: map<int, Cycle>, id: int, n: nat) {
    id in cycles && forall k :: k in cycles && k != id ==> cycles[k].received < n
  }

  lemma OpenAgain(cycles: map<int, Cycle>, id: int, n: nat)
    requires Shapes(cycles, n) && OpenExcept(cycles, id, n)
    ensures cycles[id].received < n ==> CyclesOpen(cycles, n)
    ensures Shapes(cycles - {id}, n) ==> CyclesOpen(cycles - {id}, n)
  {
  }

  /** Records a measured trial in its cycle. */
  method Join(l: Books, t: Observation, n: nat, ghost d: Promise) returns (c: Cycle)
    requires BooksOk(l, Rotate, n, d) && CyclesOpen(l.cycles, n) && n > 0 && (!t.failed ==> ValidTrial(t, n))
    ensures BooksOk(WithCycle(l, t, c), Rotate, n, Kept(d, t, Rotate, n))
    ensures OpenExcept(WithCycle(l, t, c).cycles, t.cycle, n) && Advanced(CycleOr(l.cycles, t.cycle, n), t, n, c)
  {
    var before := CycleOr(l.cycles, t.cycle, n);
    NoEvidenceConsistent(n);
    c := Advance(before, t, n);
    CycleJoins(l.cycles, t, n, c);
    WithCycleOk(l, t, n, c, d);
  }

  method Record(l: Books, t: Observation, n: nat, ghost d: Promise, ghost s: Story) returns (joined: Books)
    requires RunOk(l, Rotate, n, d, s) && n > 0 && (!t.failed ==> ValidTrial(t, n))
    ensures BooksOk(joined, Rotate, n, Kept(d, t, Rotate, n)) && OpenExcept(joined.cycles, t.cycle, n)
    ensures Tells(joined.evidence, joined.retained, joined.cycles, Begun(s, t), n)
    ensures joined.attempted == l.attempted + 1
    ensures joined.complete == l.complete + (if t.failed then 0 else 1)
    ensures joined.incomplete == l.incomplete + (if t.failed then 1 else 0)
  {
    var c := Join(l, t, n, d);
    BegunTells(l, s, t, n, c);
    joined := WithCycle(l, t, c);
  }

  /** Finalises a cycle at its last trial. */
  method Settle(l: Books, id: int, n: nat, ghost d: Promise, ghost s: Story) returns (after: Books)
    requires BooksOk(l, Rotate, n, d) && OpenExcept(l.cycles, id, n) && Tells(l.evidence, l.retained, l.cycles, s, n)
    ensures RunOk(after, Rotate, n, d, Ripe(s, id, n))
    ensures after.attempted == l.attempted && after.complete == l.complete && after.incomplete == l.incomplete
  {
    OpenAgain(l.cycles, id, n);
    after := l;
    if l.cycles[id].received == n {
      after := Finalise(l, id, n, d);
      ClosedTells(l, s, id, n, after.evidence);
    } else {
      StillOpen(l.cycles, id, n);
    }
  }

  /** Records a measured trial in its cycle, and finalises the cycle at its last trial. */
  method ObserveInCycle(l: Books, t: Observation, n: nat, ghost d: Promise, ghost s: Story) returns (after: Books)
    requires RunOk(l, Rotate, n, d, s) && n > 0 && (!t.failed ==> ValidTrial(t, n))
    ensures RunOk(after, Rotate, n, Kept(d, t, Rotate, n), Heard(s, t, Rotate, n))
    ensures after.attempted == l.attempted + 1
    ensures after.complete == l.complete + (if t.failed then 0 else 1)
    ensures after.incomplete == l.incomplete + (if t.failed then 1 else 0)
  {
    var joined := Record(l, t, n, d, s);
    after := Settle(joined, t.cycle, n, Kept(d, t, Rotate, n), Begun(s, t));
  }

  lemma StillOpen(cycles: map<int, Cycle>, id: int, n: nat)
    requires Shapes(cycles, n) && OpenExcept(cycles, id, n) && cycles[id].received != n
    ensures CyclesOpen(cycles, n)
  {
    assert CycleShape(cycles[id], n);
  }

  /** The books with one complete trial counted by itself. */
  function Counted(l: Books, evidence: Evidence): Books {
    l.(attempted := l.attempted + 1, complete := l.complete + 1, retained := l.retained + 1, evidence := evidence)
  }

  lemma CountedOk(l: Books, policy: Policy, n: nat, d: Promise, evidence: Evidence)
    requires !policy.Rotate? && CountersOk(l, policy, n, d)
    requires Consistent(evidence, n, l.retained + 1)
    ensures BooksOk(Counted(l, evidence), policy, n, d)
  {
  }

  /** Without rotation each complete trial counts by itself. */
  method ObserveAlone(l: Books, t: Observation, policy: Policy, n: nat, ghost d: Promise, ghost s: Story)
    returns (after: Books)
    requires RunOk(l, policy, n, d, s) && !policy.Rotate? && (!t.failed ==> ValidTrial(t, n))
    ensures RunOk(after, policy, n, d, Heard(s, t, policy, n))
    ensures after.attempted == l.attempted + 1
    ensures after.complete == l.complete + (if t.failed then 0 else 1)
    ensures after.incomplete == l.incomplete + (if t.failed then 1 else 0)
  {
    if t.failed {
      after := l.(attempted := l.attempted + 1, incomplete := l.incomplete + 1);
    } else {
      var evidence := TallyTrial(l.evidence, t, n, l.retained);
      CountedOk(l, policy, n, d, evidence);
      TallyTotals(l.evidence, t, n, evidence, s.kept);
      after := Counted(l, evidence);
    }
  }

  /** Takes in one measured trial. */
  method Enter(l: Books, t: Observation, policy: Policy, n: nat, ghost d: Promise, ghost s: Story)
    returns (after: Books)
    requires RunOk(l, policy, n, d, s) && n > 0 && (!t.failed ==> ValidTrial(t, n))
    ensures RunOk(after, policy, n, Kept(d, t, policy, n), Heard(s, t, policy, n))
    ensures after.attempted == l.attempted + 1
    ensures after.complete == l.complete + (if t.failed then 0 else 1)
    ensures after.incomplete == l.incomplete + (if t.failed then 1 else 0)
  {
    if policy.Rotate? {
      after := ObserveInCycle(l, t, n, d, s);
    } else {
      after := ObserveAlone(l, t, policy, n, d, s);
    }
  }

  /** An invalid trial counts only as attempted. */
  lemma AttemptOk(l: Books, policy: Policy, n: nat, d: Promise, s: Story)
    requires RunOk(l, policy, n, d, s)
    ensures RunOk(l.(attempted := l.attempted + 1), policy, n, d, s)
  {
  }

  lemma UnfinishedTells(l: Books, s: Story, n: nat)
    requires Tells(l.evidence, l.retained, l.cycles, s, n)
    ensures Tells(l.evidence, l.retained, map[], Story(s.kept, map[]), n)
  {
  }

  /** Finalises what is still open: a cycle without all its trials is excluded. */
  method CloseAll(l: Books, policy: Policy, n: nat, ghost d: Promise) returns (after: Books)
    requires BooksOk(l, policy, n, d) && CyclesOpen(l.cycles, n)
    ensures BooksOk(after, policy, n, d) && after.cycles == map[]
    ensures after.complete == l.complete && after.attempted == l.attempted && after.incomplete == l.incomplete
    ensures after.evidence == l.evidence && after.retained == l.retained
  {
    after := l;
    while exists id :: id in after.cycles
      invariant BooksOk(after, policy, n, d) && CyclesOpen(after.cycles, n)
      invariant after.complete == l.complete && after.attempted == l.attempted && after.incomplete == l.incomplete
      invariant after.evidence == l.evidence && after.retained == l.retained
      decreases |after.cycles|
    {
      var id :| id in after.cycles;
      DropCycle(after.cycles, id);
      after := Finalise(after, id, n, d);
    }
    assert after.cycles == map[];
  }

  class Measure {
    const policy: Policy
    const n: nat
    var books: Books
    var warmups: nat
    var warmupComplete: nat
    var warmupIncomplete: nat
    ghost var promise: Promise
    ghost var story: Story

    ghost predicate Valid()
      reads this
    {
      RunOk(books, policy, n, promise, story) && n > 0 && warmups == warmupComplete + warmupIncomplete
    }

    constructor (policy: Policy, n: nat, ghost bases: map<int, seq<int>>)
      requires n > 0
      ensures Valid() && this.policy == policy && this.n == n && Empty(books) && warmups == 0
      ensures promise == Promise(true, bases) && story == Story([], map[])
    {
      var blank := Open(policy, n, bases);
      this.policy, this.n, books := policy, n, blank;
      warmups, warmupComplete, warmupIncomplete := 0, 0, 0;
      promise, story := Promise(true, bases), Story([], map[]);
    }

    /** Takes in one trial of the run. A trial that claims to be complete and is not
        well-formed is an error and changes only the attempts. */
    method Observe(t: Observation) returns (ok: bool)
      requires Valid() && |t.statuses| == |t.batch.replies|
      modifies this
      ensures Valid()
      ensures promise == if t.warmup || !ok then old(promise) else Kept(old(promise), t, policy, n)
      ensures ok <==> t.warmup || t.failed || ValidTrial(t, n)
      ensures story == if t.warmup || !ok then old(story) else Heard(old(story), t, policy, n)
      ensures if t.warmup then books == old(books) && warmups == old(warmups) + 1
              else warmups == old(warmups) && books.attempted == old(books.attempted) + 1
      ensures warmupComplete == old(warmupComplete) + if t.warmup && !t.failed then 1 else 0
      ensures warmupIncomplete == old(warmupIncomplete) + if t.warmup && t.failed then 1 else 0
      ensures !t.warmup ==>
                && books.complete == old(books.complete) + (if ok && !t.failed then 1 else 0)
                && books.incomplete == old(books.incomplete) + (if t.failed then 1 else 0)
    {
      if t.warmup {
        warmups := warmups + 1;
        if t.failed {
          warmupIncomplete := warmupIncomplete + 1;
        } else {
          warmupComplete := warmupComplete + 1;
        }
        return true;
      }
      if !t.failed {
        ok := Validate(t, n);
        if !ok {
          AttemptOk(books, policy, n, promise, story);
          books := books.(attempted := books.attempted + 1);
          return false;
        }
      }
      books := Enter(books, t, policy, n, promise, story);
      promise, story := Kept(promise, t, policy, n), Heard(story, t, policy, n);
      ok := true;
    }

    /** Finalises what is still open. Then every complete trial is retained or excluded;
        the evidence counts exactly the trials kept; any two requests were compared in
        each of them; and under rotation only whole cycles are retained, with every
        request in every position once per cycle if the driver followed the rotations. */
    method Finish()
      requires Valid()
      modifies this`books, this`story
      ensures Valid() && books.cycles == map[] && story == Story(old(story).kept, map[])
      ensures books.complete == old(books.complete) && books.evidence == old(books.evidence)
      ensures books.attempted == old(books.attempted) && books.incomplete == old(books.incomplete)
      ensures Closes(books, policy, n, promise, story)
    {
      var l := CloseAll(books, policy, n, promise);
      UnfinishedTells(books, story, n);
      BooksClose(l, policy, n, promise, Story(story.kept, map[]));
      books, story := l, Story(story.kept, map[]);
    }

    /** The closing consistency check. Under rotation it never fails; otherwise it fails
        exactly if the transport's summary disagrees. */
    method Reconcile(transport: Option<Transport>) returns (ok: bool)
      requires Valid() && (transport.Some? ==> |transport.value.ranks| == n)
      ensures ok <==> policy.Rotate? || transport.None? ||
                      (transport.value.trials == books.retained && transport.value.ranks == books.evidence.ranks)
    {
      var own := Transport(books.retained, books.evidence.ranks);
      var other := if !policy.Rotate? && transport.Some? then transport.value else own;
      ok := CheckStatuses(books.evidence, n, books.retained, other);
      if ok {
        ok := CheckPairs(books.evidence.pairwise, n, books.retained);
      }
    }
  }

  /** The transport's own summary: trials counted and rank counts by request. */
  datatype Transport = Transport(trials: nat, ranks: Matrix)

  method SumHistogram(h: Histogram) returns (total: int)
    ensures total == Total(h)
  {
    var rest := h;
    total := 0;
    while exists k :: k in rest
      invariant total + Total(rest) == Total(h)
      decreases |rest|
    {
      var k :| k in rest;
      TotalWithout(rest, k);
      total, rest := total + rest[k], rest - {k};
    }
  }

  method CheckStatuses(e: Evidence, n: nat, ghost t: nat, other: Transport) returns (ok: bool)
    requires Consistent(e, n, t) && |other.ranks| == n && n > 0
    ensures ok <==> other.trials == t && other.ranks == e.ranks
  {
    for i := 0 to n
      invariant i > 0 ==> other.trials == t
      invariant forall k :: 0 <= k < i ==> other.ranks[k] == e.ranks[k]
    {
      var total := SumHistogram(e.statuses[i]);
      if total != other.trials || e.ranks[i] != other.ranks[i] {
        return false;
      }
    }
    ok := true;
  }

  method CheckPairs(pairwise: Matrix, n: nat, t: nat) returns (ok: bool)
    requires Square(pairwise, n)
    ensures ok <==> Tournament(pairwise, n, t)
  {
    for l := 0 to n
      invariant forall k :: 0 <= k < l ==> pairwise[k][k] == 0
      invariant forall k, r :: 0 <= k < l && 0 <= r < n && k != r ==> pairwise[k][r] + pairwise[r][k] == t
    {
      for r := 0 to n
        invariant l < r ==> pairwise[l][l] == 0
        invariant forall q :: 0 <= q < r && q != l ==> pairwise[l][q] + pairwise[q][l] == t
      {
        if l == r {
          if pairwise[l][r] != 0 {
            return false;
          }
        } else if pairwise[l][r] + pairwise[r][l] != t {
          return false;
        }
      }
    }
    ok := true;
  }

  /** What the books of a finished run say. */
  ghost predicate Closes(l: Books, policy: Policy, n: nat, d: Promise, s: Story) {
    && l.complete == l.retained + l.excluded && l.retained == |s.kept| && Totals(l.evidence, s.kept, n)
    && Tournament(l.evidence.pairwise, n, l.retained) && Balanced(l.evidence.ranks, n, l.retained)
    && (!policy.Rotate? ==> l.retained == l.complete)
    && (policy.Rotate? ==> l.retained == n * l.cyclesKept && l.cyclesBegun == l.cyclesKept + l.cyclesDropped)
    && (policy.Rotate? && d.followed ==> Uniform(l.evidence.assignments, n, l.cyclesKept))
  }

  lemma BooksClose(l: Books, policy: Policy, n: nat, d: Promise, s: Story)
    requires BooksOk(l, policy, n, d) && l.cycles == map[] && Totals(l.evidence, s.kept, n) && |s.kept| == l.retained
    ensures Closes(l, policy, n, d, s)
  {
    assert CompleteOf(map[]) == map[];
  }
}
