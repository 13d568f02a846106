/**
  The job dispatcher: one dispatcher thread hands jobs to a pool under a
  three-permit semaphore, and workers give permits back on their own time.
  The state machine below has one event per indivisible action of either side,
  so that a sequence of events is one interleaving; an event that cannot happen
  in a state changes nothing.
 */
module Dispatch {
  import opened Domain

  const PERMITS := 3
  const LONG_LANES := 2

  datatype Kind =
    | Baseline | Optimize | Replan | CostAnalysis | CapacityAnalysis | RiskAnalysis | StrategyExperiment | Unknown

  /** `named`: the payload of the job holds an `experiment_id`. */
  datatype Job = Job(id: Id, kind: Kind, created: int, waited: real, named: bool)

  predicate Short(k: Kind) {
    k.Baseline? || k.Replan? || k.CostAnalysis?
  }

  /** An experiment without an id raises before the code that guarantees the release. */
  predicate Leaks(j: Job) {
    j.kind.StrategyExperiment? && !j.named
  }

  datatype Phase = Holding | Released | Finished | Lost

  predicate Done(p: Phase) {
    p.Finished? || p.Lost?
  }

  /** A submitted job; its position in the list stands for its future. */
  datatype Work = Work(job: Job, phase: Phase)

  /** What the dispatcher thread is in the middle of. */
  datatype Hand = Free | Reserved(job: Job) | Submitted(job: Job, ticket: nat)

  datatype State = State(permits: int, pending: map<Id, nat>, works: seq<Work>, hand: Hand, stopping: bool)

  datatype Event =
    | Release(ticket: nat) | Finish(ticket: nat) | Crash(ticket: nat) | Stop
    | Prune | Acquire(job: Job) | Submit | Refuse | Record

  predicate ByWorkers(e: Event) {
    e.Release? || e.Finish? || e.Crash? || e.Stop?
  }

  const OPENING := State(PERMITS, map[], [], Free, false)

  /** Ids in `pending` whose jobs are long. */
  function LongPending(pending: map<Id, nat>, works: seq<Work>): set<Id> {
    set id | id in pending && pending[id] < |works| && !Short(works[pending[id]].job.kind)
  }

  predicate LaneFull(s: State, j: Job) {
    !Short(j.kind) && |LongPending(s.pending, s.works)| >= LONG_LANES
  }

  predicate Enabled(s: State, e: Event) {
    match e
    case Release(k) => k < |s.works| && s.works[k].phase.Holding? && !Leaks(s.works[k].job)
    case Crash(k) => k < |s.works| && s.works[k].phase.Holding? && Leaks(s.works[k].job)
    case Finish(k) => k < |s.works| && s.works[k].phase.Released?
    case Stop => true
    case Prune => s.hand.Free?
    case Acquire(j) => s.hand.Free? && j.id !in s.pending && !j.kind.Unknown? && !LaneFull(s, j) && s.permits > 0
    case Submit => s.hand.Reserved?
    case Refuse => s.hand.Reserved?
    case Record => s.hand.Submitted?
  }

  function Enter(works: seq<Work>, k: nat, p: Phase): seq<Work>
    requires k < |works|
  {
    works[k := works[k].(phase := p)]
  }

  /** `{key: value for key, value in pending.items() if not value[0].done()}`. */
  function Unfinished(pending: map<Id, nat>, works: seq<Work>): map<Id, nat> {
    map id | id in pending && !(pending[id] < |works| && Done(works[pending[id]].phase)) :: pending[id]
  }

  function Apply(s: State, e: Event): State {
    if !Enabled(s, e) then s
    else
      match e
      case Release(k) => s.(permits := s.permits + 1, works := Enter(s.works, k, Released))
      case Crash(k) => s.(works := Enter(s.works, k, Lost))
      case Finish(k) => s.(works := Enter(s.works, k, Finished))
      case Stop => s.(stopping := true)
      case Prune => s.(pending := Unfinished(s.pending, s.works))
      case Acquire(j) => s.(permits := s.permits - 1, hand := Reserved(j))
      case Submit => s.(works := s.works + [Work(s.hand.job, Holding)], hand := Submitted(s.hand.job, |s.works|))
      case Refuse => s.(permits := s.permits + 1, hand := Free)
      case Record => s.(pending := s.pending[s.hand.job.id := s.hand.ticket], hand := Free)
  }

  /** The state after an interleaving. */
  function Outcome(s: State, es: seq<Event>): State {
    if es == [] then s else Apply(Outcome(s, es[..|es| - 1]), es[|es| - 1])
  }

  // ----- what every interleaving keeps -----

  function InPhase(works: seq<Work>, p: Phase): nat {
    if works == [] then 0
    else InPhase(works[..|works| - 1], p) + if works[|works| - 1].phase == p then 1 else 0
  }

  /** Permits that are out and will come back: running jobs, and the one in the dispatcher's hand. */
  function Held(s: State): nat {
    InPhase(s.works, Holding) + if s.hand.Reserved? then 1 else 0
  }

  ghost predicate PendingNamesWork(s: State) {
    forall id :: id in s.pending ==> s.pending[id] < |s.works| && s.works[s.pending[id]].job.id == id
  }

  /** A job that is not done is pending, or is just being recorded. */
  ghost predicate LiveIsPending(s: State) {
    forall k :: 0 <= k < |s.works| && !Done(s.works[k].phase) ==>
      s.hand == Submitted(s.works[k].job, k)
      || (s.works[k].job.id in s.pending && s.pending[s.works[k].job.id] == k)
  }

  ghost predicate HandIsNew(s: State) {
    && (!s.hand.Free? ==> s.hand.job.id !in s.pending)
    && (s.hand.Submitted? ==> s.hand.ticket < |s.works| && s.works[s.hand.ticket].job == s.hand.job)
  }

  ghost predicate LongLanes(s: State) {
    |LongPending(s.pending, s.works)| + (if !s.hand.Free? && !Short(s.hand.job.kind) then 1 else 0) <= LONG_LANES
  }

  ghost predicate Inv(s: State) {
    && s.permits >= 0
    && s.permits + Held(s) + InPhase(s.works, Lost) == PERMITS
    && PendingNamesWork(s) && LiveIsPending(s) && HandIsNew(s) && LongLanes(s)
  }

  /** The jobs in phase q after one moved from one phase to another. */
  function Recount(works: seq<Work>, from: Phase, to: Phase, q: Phase): int {
    InPhase(works, q) + (if q == to then 1 else 0) - (if q == from then 1 else 0)
  }

  lemma {:induction false} EnterCounts(works: seq<Work>, k: nat, p: Phase, q: Phase)
    requires k < |works| && works[k].phase != p
    ensures InPhase(Enter(works, k, p), q) == Recount(works, works[k].phase, p, q)
  {
    var after := Enter(works, k, p);
    if k == |works| - 1 {
      assert after[..|works| - 1] == works[..|works| - 1];
    } else {
      assert after[..|works| - 1] == Enter(works[..|works| - 1], k, p);
      EnterCounts(works[..|works| - 1], k, p, q);
    }
  }

  lemma EnterKeepsJobs(pending: map<Id, nat>, works: seq<Work>, k: nat, p: Phase)
    requires k < |works|
    ensures LongPending(pending, Enter(works, k, p)) == LongPending(pending, works)
  {
  }

  /** Workers move one job from phase to phase. */
  lemma WorkerKeeps(s: State, k: nat, p: Phase)
    requires Inv(s) && k < |s.works| && s.works[k].phase != p && !Done(s.works[k].phase)
    ensures var t := s.(works := Enter(s.works, k, p));
            PendingNamesWork(t) && LiveIsPending(t) && HandIsNew(t) && LongLanes(t)
  {
    hide InPhase, LongPending;
    EnterKeepsJobs(s.pending, s.works, k, p);
  }

  lemma PruneKeeps(s: State)
    requires Inv(s) && s.hand.Free?
    ensures Inv(Apply(s, Prune))
  {
    hide InPhase;
    var t := Apply(s, Prune);
    SubsetSize(LongPending(t.pending, t.works), LongPending(s.pending, s.works));
  }

  lemma SubsetSize<T>(a: set<T>, b: set<T>)
    requires a <= b
    ensures |a| <= |b|
  {
    assert b == a + (b - a);
  }

  lemma SubmittedLane(s: State)
    requires PendingNamesWork(s) && s.hand.Reserved?
    ensures LongPending(s.pending, Apply(s, Submit).works) == LongPending(s.pending, s.works)
  {
  }

  lemma AppendCounts(works: seq<Work>, w: Work, q: Phase)
    ensures InPhase(works + [w], q) == InPhase(works, q) + if w.phase == q then 1 else 0
  {
    assert (works + [w])[..|works|] == works;
  }

  lemma SubmitKeeps(s: State)
    requires Inv(s) && s.hand.Reserved?
    ensures Inv(Apply(s, Submit))
  {
    hide LongPending, InPhase;
    SubmittedLane(s);
    AppendCounts(s.works, Work(s.hand.job, Holding), Holding);
    AppendCounts(s.works, Work(s.hand.job, Holding), Lost);
  }

  lemma RecordKeeps(s: State)
    requires Inv(s) && s.hand.Submitted?
    ensures Inv(Apply(s, Record))
  {
    hide InPhase, LongPending;
    var t, id := Apply(s, Record), s.hand.job.id;
    RecordedLane(s);
    assert id !in s.pending;
  }

  lemma RecordedLane(s: State)
    requires PendingNamesWork(s) && HandIsNew(s) && s.hand.Submitted?
    ensures |LongPending(s.pending[s.hand.job.id := s.hand.ticket], s.works)|
         == |LongPending(s.pending, s.works)| + if Short(s.hand.job.kind) then 0 else 1
  {
    var id := s.hand.job.id;
    var before, after := LongPending(s.pending, s.works), LongPending(s.pending[id := s.hand.ticket], s.works);
    assert id !in before;
    forall x ensures x in after <==> x in before || (x == id && !Short(s.hand.job.kind)) {
    }
    assert after == if Short(s.hand.job.kind) then before else before + {id};
  }

  lemma ApplyKeeps(s: State, e: Event)
    requires Inv(s)
    ensures Inv(Apply(s, e))
  {
    if Enabled(s, e) {
      match e {
        case Release(k) => WorkerKeeps(s, k, Released); Counted(s, k, Released);
        case Crash(k) => WorkerKeeps(s, k, Lost); Counted(s, k, Lost);
        case Finish(k) => WorkerKeeps(s, k, Finished); Counted(s, k, Finished);
        case Stop =>
        case Prune => PruneKeeps(s);
        case Acquire(j) =>
        case Submit => SubmitKeeps(s);
        case Refuse =>
        case Record => RecordKeeps(s);
      }
    }
  }

  lemma Counted(s: State, k: nat, p: Phase)
    requires k < |s.works| && s.works[k].phase != p
    ensures forall q :: InPhase(Enter(s.works, k, p), q) == Recount(s.works, s.works[k].phase, p, q)
  {
    forall q {
      EnterCounts(s.works, k, p, q);
    }
  }

  lemma {:induction false} EveryInterleaving(es: seq<Event>)
    ensures Inv(Outcome(OPENING, es))
  {
    if es != [] {
      EveryInterleaving(es[..|es| - 1]);
      ApplyKeeps(Outcome(OPENING, es[..|es| - 1]), es[|es| - 1]);
    }
  }

  // ----- what that means -----

  predicate NothingLost(s: State) {
    forall k :: 0 <= k < |s.works| ==> !s.works[k].phase.Lost?
  }

  lemma {:induction false} NoneInPhase(works: seq<Work>, p: Phase)
    ensures InPhase(works, p) == 0 <==> forall k :: 0 <= k < |works| ==> works[k].phase != p
  {
    if works != [] {
      var front := works[..|works| - 1];
      NoneInPhase(front, p);
      if k :| 0 <= k < |works| && works[k].phase == p && k < |works| - 1 {
        assert front[k].phase == p;
      }
    }
  }

  /**
    Conservation: whatever the interleaving, the permits on the semaphore and
    the permits that are out never exceed three, and they are exactly three
    until an experiment without an id runs; each such run costs one permit for good.
   */
  lemma PermitsConserved(es: seq<Event>)
    ensures var s := Outcome(OPENING, es);
            && 0 <= s.permits <= PERMITS
            && s.permits + Held(s) == PERMITS - InPhase(s.works, Lost)
            && (s.permits + Held(s) == PERMITS <==> NothingLost(s))
  {
    EveryInterleaving(es);
    NoneInPhase(Outcome(OPENING, es).works, Lost);
  }

  /** A permit is lost only by an experiment without an id. */
  lemma {:induction false} OnlyLeaksAreLost(es: seq<Event>)
    ensures forall w :: w in Outcome(OPENING, es).works && w.phase.Lost? ==> w.job.kind.StrategyExperiment? && !w.job.named
  {
    if es != [] {
      OnlyLeaksAreLost(es[..|es| - 1]);
    }
  }

  /** How often the k-th submitted job gave its permit back. */
  function Releases(es: seq<Event>, k: nat): nat {
    if es == [] then 0
    else
      var front, e := es[..|es| - 1], es[|es| - 1];
      Releases(front, k) + if e == Release(k) && Enabled(Outcome(OPENING, front), e) then 1 else 0
  }

  /**
    Every job gives its permit back at most once, and has done so exactly once
    when its future is done, unless it is an experiment without an id, which
    never does.
   */
  lemma {:induction false} ReleasedExactlyOnce(es: seq<Event>, k: nat)
    ensures var s := Outcome(OPENING, es);
            && Releases(es, k) == (if k < |s.works| && (s.works[k].phase.Released? || s.works[k].phase.Finished?) then 1 else 0)
            && (k < |s.works| && Done(s.works[k].phase) ==> 
                  Releases(es, k) == if s.works[k].job.kind.StrategyExperiment? && !s.works[k].job.named then 0 else 1)
  {
    ReleasedBooks(es, k);
    OnlyLeaksAreLost(es);
    var s := Outcome(OPENING, es);
    if k < |s.works| {
      assert s.works[k] in s.works;
      ReleasedIsNamed(es, k);
    }
  }

  lemma {:induction false} ReleasedBooks(es: seq<Event>, k: nat)
    ensures var s := Outcome(OPENING, es);
            Releases(es, k) == (if k < |s.works| && (s.works[k].phase.Released? || s.works[k].phase.Finished?) then 1 else 0)
  {
    if es != [] {
      ReleasedBooks(es[..|es| - 1], k);
    }
  }

  lemma {:induction false} ReleasedIsNamed(es: seq<Event>, k: nat)
    requires k < |Outcome(OPENING, es).works|
    ensures var w := Outcome(OPENING, es).works[k];
            w.phase.Released? || w.phase.Finished? ==> !Leaks(w.job)
  {
    if es != [] {
      if k < |Outcome(OPENING, es[..|es| - 1]).works| {
        ReleasedIsNamed(es[..|es| - 1], k);
      }
    }
  }

  /** No job runs twice at once. */
  lemma NoTwins(es: seq<Event>, i: nat, j: nat)
    requires i < j < |Outcome(OPENING, es).works|
    ensures var w := Outcome(OPENING, es).works;
            w[i].job.id == w[j].job.id ==> Done(w[i].phase) || Done(w[j].phase)
  {
    EveryInterleaving(es);
    hide Outcome;
    if !Done(Outcome(OPENING, es).works[i].phase) && !Done(Outcome(OPENING, es).works[j].phase) {
      LiveDiffer(Outcome(OPENING, es), i, j);
    }
  }

  predicate LongHolder(w: Work) {
    && w.phase.Holding?
    && (w.job.kind.Optimize? || w.job.kind.CapacityAnalysis? || w.job.kind.RiskAnalysis? || w.job.kind.StrategyExperiment?)
  }

  /** At most two long jobs hold permits. */
  lemma TwoLongLanes(es: seq<Event>, i: nat, j: nat, k: nat)
    requires i < j < k < |Outcome(OPENING, es).works|
    ensures var w := Outcome(OPENING, es).works;
            !(LongHolder(w[i]) && LongHolder(w[j]) && LongHolder(w[k]))
  {
    EveryInterleaving(es);
    var s := Outcome(OPENING, es);
    if LongHolder(s.works[i]) && LongHolder(s.works[j]) && LongHolder(s.works[k]) {
      ThreeLong(s, i, j, k);
    }
  }

  /** The ids that keep a long lane busy: pending long jobs and the one in the dispatcher's hand. */
  function LongLane(s: State): set<Id> {
    LongPending(s.pending, s.works) + if s.hand.Free? || Short(s.hand.job.kind) then {} else {s.hand.job.id}
  }

  lemma ThreeLong(s: State, i: nat, j: nat, k: nat)
    requires Inv(s) && i < j < k < |s.works|
    ensures !(LongHolder(s.works[i]) && LongHolder(s.works[j]) && LongHolder(s.works[k]))
  {
    hide InPhase, LongLane, Inv;
    if LongHolder(s.works[i]) && LongHolder(s.works[j]) && LongHolder(s.works[k]) {
      LongIsInLane(s, i);
      LongIsInLane(s, j);
      LongIsInLane(s, k);
      LiveDiffer(s, i, j);
      LiveDiffer(s, j, k);
      LiveDiffer(s, i, k);
      LaneSize(s);
      SubsetSize({s.works[i].job.id, s.works[j].job.id, s.works[k].job.id}, LongLane(s));
    }
  }

  lemma LiveDiffer(s: State, i: nat, j: nat)
    requires Inv(s) && i < j < |s.works| && !Done(s.works[i].phase) && !Done(s.works[j].phase)
    ensures s.works[i].job.id != s.works[j].job.id
  {
    hide InPhase, LongPending;
  }

  lemma LaneSize(s: State)
    requires Inv(s)
    ensures |LongLane(s)| <= LONG_LANES
  {
    hide InPhase, LiveIsPending;
    var long := LongPending(s.pending, s.works);
    if !s.hand.Free? && !Short(s.hand.job.kind) {
      assert s.hand.job.id !in long;
    } else {
      assert long + {} == long;
    }
  }

  lemma LongIsInLane(s: State, i: nat)
    requires Inv(s) && i < |s.works| && LongHolder(s.works[i])
    ensures s.works[i].job.id in LongLane(s)
  {
    hide InPhase;
  }

  /** A baseline, a replan and a cost analysis wait for nothing but a permit. */
  lemma ShortJobsNeedOnlyAPermit(s: State, j: Job)
    requires j.kind.Baseline? || j.kind.Replan? || j.kind.CostAnalysis?
    requires s.hand.Free? && j.id !in s.pending && s.permits > 0
    ensures Apply(s, Acquire(j)) == s.(permits := s.permits - 1, hand := Reserved(j))
  {
  }

  /** Only jobs of the known kinds are ever dispatched. */
  lemma {:induction false} KnownKinds(es: seq<Event>)
    ensures var s := Outcome(OPENING, es);
            (forall w :: w in s.works ==> !w.job.kind.Unknown?) && (!s.hand.Free? ==> !s.hand.job.kind.Unknown?)
  {
    hide InPhase, LongPending;
    if es != [] {
      KnownKinds(es[..|es| - 1]);
    }
  }

  predicate ShortHolder(w: Work) {
    w.phase.Holding? && (w.job.kind.Baseline? || w.job.kind.Replan? || w.job.kind.CostAnalysis?)
  }

  /** When every permit is out and none is lost, one of the holders is a short job. */
  lemma AShortJobHolds(es: seq<Event>)
    requires var s := Outcome(OPENING, es); s.permits == 0 && s.hand.Free? && NothingLost(s)
    ensures exists w :: w in Outcome(OPENING, es).works && ShortHolder(w)
  {
    var s := Outcome(OPENING, es);
    PermitsConserved(es);
    KnownKinds(es);
    hide Outcome;
    var k := LastHolder(s.works);
    var j := LastHolder(s.works[..k]);
    assert s.works[..k][..j] == s.works[..j];
    var i := LastHolder(s.works[..j]);
    hide InPhase;
    TwoLongLanes(es, i, j, k);
    assert s.works[i] in s.works && s.works[j] in s.works && s.works[k] in s.works;
  }

  /** The last holder, and how many come before it. */
  lemma {:induction false} LastHolder(works: seq<Work>) returns (k: nat)
    requires InPhase(works, Holding) > 0
    ensures k < |works| && works[k].phase.Holding? && InPhase(works[..k], Holding) == InPhase(works, Holding) - 1
  {
    k := |works| - 1;
    if !works[k].phase.Holding? {
      var front := works[..k];
      k := LastHolder(front);
      assert works[..k] == front[..k];
    }
  }

  /** No later event brings a lost permit back. */
  lemma LostNeverFalls(s: State, e: Event)
    ensures InPhase(Apply(s, e).works, Lost) >= InPhase(s.works, Lost)
  {
    if Enabled(s, e) {
      match e {
        case Release(k) => Counted(s, k, Released);
        case Crash(k) => Counted(s, k, Lost);
        case Finish(k) => Counted(s, k, Finished);
        case Submit => assert Apply(s, e).works[..|s.works|] == s.works;
        case _ =>
      }
    }
  }

  lemma {:induction false} LostForGood(es: seq<Event>, more: seq<Event>)
    ensures InPhase(Outcome(OPENING, es + more).works, Lost) >= InPhase(Outcome(OPENING, es).works, Lost)
  {
    if more == [] {
      assert es + more == es;
    } else {
      assert (es + more)[..|es + more| - 1] == es + more[..|more| - 1];
      LostForGood(es, more[..|more| - 1]);
      LostNeverFalls(Outcome(OPENING, es + more[..|more| - 1]), more[|more| - 1]);
    }
  }

  /** After three lost permits nothing is ever dispatched again, whatever happens later. */
  lemma LostPermitsStarve(es: seq<Event>, more: seq<Event>, j: Job)
    requires InPhase(Outcome(OPENING, es).works, Lost) == PERMITS
    ensures !Enabled(Outcome(OPENING, es + more), Acquire(j))
  {
    LostForGood(es, more);
    EveryInterleaving(es + more);
  }

  // ----- exactly when no permit is lost -----

  predicate DispatchesOnly(es: seq<Event>, jobs: set<Job>) {
    forall e :: e in es && e.Acquire? ==> e.job in jobs
  }

  ghost predicate NeverLoses(jobs: set<Job>) {
    forall es :: DispatchesOnly(es, jobs) ==> var s := Outcome(OPENING, es); s.permits + Held(s) == PERMITS
  }

  lemma {:induction false} OnlyDispatchedRun(es: seq<Event>, jobs: set<Job>)
    requires DispatchesOnly(es, jobs)
    ensures var s := Outcome(OPENING, es);
            && (forall w :: w in s.works ==> w.job in jobs)
            && (!s.hand.Free? ==> s.hand.job in jobs)
  {
    if es != [] {
      OnlyDispatchedRun(es[..|es| - 1], jobs);
    }
  }

  /** One experiment without an id, dispatched first. */
  lemma LosingRun(j: Job)
    requires Leaks(j)
    ensures var s := Outcome(OPENING, [Acquire(j), Submit, Record, Crash(0)]);
            s.permits == PERMITS - 1 && Held(s) == 0
  {
    var a, b, c := [Acquire(j)], [Acquire(j), Submit], [Acquire(j), Submit, Record];
    assert a[..0] == [] && b[..1] == a && c[..2] == b && [Acquire(j), Submit, Record, Crash(0)][..3] == c;
    LosingSteps(j);
    hide Apply, InPhase;
    assert Outcome(OPENING, []) == OPENING;
    assert Outcome(OPENING, a) == State(2, map[], [], Reserved(j), false);
    assert Outcome(OPENING, b) == State(2, map[], [Work(j, Holding)], Submitted(j, 0), false);
    assert Outcome(OPENING, c) == State(2, map[j.id := 0], [Work(j, Holding)], Free, false);
  }

  lemma LosingSteps(j: Job)
    requires Leaks(j)
    ensures Apply(OPENING, Acquire(j)) == State(2, map[], [], Reserved(j), false)
    ensures Apply(State(2, map[], [], Reserved(j), false), Submit)
         == State(2, map[], [Work(j, Holding)], Submitted(j, 0), false)
    ensures Apply(State(2, map[], [Work(j, Holding)], Submitted(j, 0), false), Record)
         == State(2, map[j.id := 0], [Work(j, Holding)], Free, false)
    ensures Apply(State(2, map[j.id := 0], [Work(j, Holding)], Free, false), Crash(0))
         == State(2, map[j.id := 0], [Work(j, Lost)], Free, false)
    ensures InPhase([Work(j, Lost)], Holding) == 0
  {
    assert [Work(j, Lost)][..0] == [];
    assert Enter([Work(j, Holding)], 0, Lost) == [Work(j, Lost)];
  }

  /**
    No interleaving over a set of jobs loses a permit if and only if every
    experiment in the set carries its id.
   */
  lemma NoLossExactly(jobs: set<Job>)
    ensures NeverLoses(jobs) <==> forall j :: j in jobs && j.kind.StrategyExperiment? ==> j.named
  {
    if j :| j in jobs && Leaks(j) {
      LosingRun(j);
      assert DispatchesOnly([Acquire(j), Submit, Record, Crash(0)], jobs);
    } else {
      forall es | DispatchesOnly(es, jobs)
        ensures var s := Outcome(OPENING, es); s.permits + Held(s) == PERMITS
      {
        PermitsConserved(es);
        OnlyLeaksAreLost(es);
        OnlyDispatchedRun(es, jobs);
        var s := Outcome(OPENING, es);
        forall k | 0 <= k < |s.works| ensures !s.works[k].phase.Lost? {
          assert s.works[k] in s.works;
        }
      }
    }
  }
}
