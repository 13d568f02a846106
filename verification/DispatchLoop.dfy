/**
  One pass of the dispatcher thread over the recoverable jobs, with the workers
  moving between any two of its actions. The pass is one interleaving of the
  state machine, and it serves waiting jobs in order.
 */
module DispatchLoop {
  import opened Domain
  import opened Sorting
  import opened Dispatch

  /** `_job_dispatch_priority`. */
  function Priority(j: Job): nat {
    if j.waited >= 30.0 then 0 else if Short(j.kind) then 1 else 2
  }

  predicate ServedFirst(a: Job, b: Job) {
    Priority(a) < Priority(b) || (Priority(a) == Priority(b) && a.created <= b.created)
  }

  predicate SameLane(a: Job, b: Job) {
    Short(a.kind) == Short(b.kind)
  }

  predicate Waiting(pending: map<Id, nat>, j: Job) {
    j.id !in pending && !j.kind.Unknown?
  }

  /** Outside events: what the workers do at each step, and which submissions the pool accepts. */
  datatype Weather = Weather(workers: nat -> seq<Event>, accepts: nat -> bool)

  predicate HasId(js: seq<Job>, id: Id) {
    exists i :: 0 <= i < |js| && js[i].id == id
  }

  /**
    Whose turn comes first: after thirty seconds of waiting the older job's,
    whatever its kind; before that a short job's, and among jobs of one lane the
    older one's.
   */
  predicate TurnBefore(a: Job, b: Job) {
    || (a.waited >= 30.0 && b.waited < 30.0)
    || (a.waited >= 30.0 && b.waited >= 30.0 && a.created < b.created)
    || (a.waited < 30.0 && b.waited < 30.0 && Short(a.kind) && !Short(b.kind))
    || (a.waited < 30.0 && b.waited < 30.0 && SameLane(a, b) && a.created < b.created)
  }

  /** The lane of `a` is free whenever that of `b` is. */
  predicate NeedsNoMore(a: Job, b: Job) {
    SameLane(a, b) || Short(a.kind)
  }

  /** No job was dispatched ahead of one whose turn came before and that needs no other lane. */
  ghost predicate NotOvertaken(jobs: seq<Job>, pending: map<Id, nat>, dispatched: seq<Job>) {
    forall a, k :: a in jobs && Waiting(pending, a) && 0 <= k < |dispatched|
                   && NeedsNoMore(a, dispatched[k]) && TurnBefore(a, dispatched[k])
                   ==> HasId(dispatched[..k], a.id)
  }

  datatype Verdict = Skipped | NoPermit | Refused | Sent

  /** What worker events leave alone. */
  ghost predicate WorkersOnly(s: State, t: State) {
    && t.pending == s.pending && t.hand == s.hand && (s.stopping ==> t.stopping) && t.permits >= s.permits
    && |t.works| == |s.works| && (forall k :: 0 <= k < |s.works| ==> t.works[k].job == s.works[k].job)
  }

  lemma WorkerFrame(s: State, e: Event)
    requires ByWorkers(e)
    ensures WorkersOnly(s, Apply(s, e))
  {
  }

  lemma WorkersOnlyJoins(s: State, t: State, u: State)
    requires WorkersOnly(s, t) && WorkersOnly(t, u)
    ensures WorkersOnly(s, u)
  {
  }

  lemma WorkersKeepLanes(s: State, t: State)
    requires WorkersOnly(s, t)
    ensures LongPending(t.pending, t.works) == LongPending(s.pending, s.works)
  {
  }

  lemma OutcomeGrows(s: State, es: seq<Event>, e: Event)
    ensures Outcome(s, es + [e]) == Apply(Outcome(s, es), e)
  {
    assert (es + [e])[..|es|] == es;
  }

  lemma {:induction false} OutcomeJoins(s: State, es: seq<Event>, fs: seq<Event>)
    ensures Outcome(s, es + fs) == Outcome(Outcome(s, es), fs)
  {
    if fs == [] {
      assert es + fs == es;
    } else {
      assert (es + fs)[..|es + fs| - 1] == es + fs[..|fs| - 1];
      OutcomeJoins(s, es, fs[..|fs| - 1]);
    }
  }

  /**
    What offering one job changes, for the dispatcher: a sent job becomes
    pending, and was waiting in a lane that was not full; a skipped job had a
    reason that still holds.
   */
  ghost predicate OfferEffect(s: State, t: State, j: Job, v: Verdict) {
    && (s.stopping ==> t.stopping && v.Skipped?)
    && LongPending(s.pending, s.works) <= LongPending(t.pending, t.works)
    && t.pending.Keys == s.pending.Keys + (if v.Sent? then {j.id} else {})
    && (v.Sent? ==> Waiting(s.pending, j) && !LaneFull(s, j))
    && (v.Skipped? ==> t.stopping || !Waiting(s.pending, j) || LaneFull(t, j))
  }

  /** What settling a reservation changes: the job becomes pending if the pool took it. */
  ghost predicate SettleEffect(s: State, t: State, j: Job, accepted: bool) {
    && (s.stopping ==> t.stopping)
    && LongPending(s.pending, s.works) <= LongPending(t.pending, t.works)
    && t.pending.Keys == s.pending.Keys + (if accepted then {j.id} else {})
  }

  // ----- a whole pass -----

  function IdsOf(js: seq<Job>): set<Id> {
    set j | j in js :: j.id
  }

  /** Each waiting job passed over so far was sent, or its lane is full, or the service stops. */
  ghost predicate Caught(s: State, order: seq<Job>, left: map<Id, nat>, dispatched: seq<Job>, n: nat)
    requires n <= |order|
  {
    forall m :: 0 <= m < n && Waiting(left, order[m]) ==>
      HasId(dispatched, order[m].id) || LaneFull(s, order[m]) || s.stopping
  }

  /** The dispatched jobs are waiting jobs of the list, at increasing places. */
  ghost predicate InOrder(order: seq<Job>, left: map<Id, nat>, dispatched: seq<Job>, at: seq<nat>, n: nat)
    requires n <= |order|
  {
    && |at| == |dispatched|
    && (forall k :: 0 <= k < |at| ==> at[k] < n && dispatched[k] == order[at[k]] && Waiting(left, order[at[k]]))
  }

  /** Every dispatched job came after the waiting jobs that stand before it and need no other lane. */
  ghost predicate Queue(order: seq<Job>, left: map<Id, nat>, dispatched: seq<Job>, at: seq<nat>)
    requires |at| == |dispatched| && forall k :: 0 <= k < |at| ==> at[k] < |order|
  {
    forall k, m :: 0 <= k < |at| && 0 <= m < at[k] && Waiting(left, order[m]) && NeedsNoMore(order[m], dispatched[k])
                   ==> HasId(dispatched[..k], order[m].id)
  }

  lemma PruneStep(s: State)
    requires s.hand.Free?
    ensures Apply(s, Prune) == s.(pending := Unfinished(s.pending, s.works))
    ensures Outcome(s, [Prune]) == Apply(s, Prune)
  {
    assert [Prune][..0] == [];
  }

  lemma SentNothing(s: State, t: State, j: Job, v: Verdict)
    requires OfferEffect(s, t, j, v) && !v.Sent?
    ensures t.pending.Keys == s.pending.Keys
  {
  }

  lemma HasIdGrows(js: seq<Job>, j: Job)
    ensures forall id :: HasId(js, id) ==> HasId(js + [j], id)
    ensures HasId(js + [j], j.id)
    ensures IdsOf(js + [j]) == IdsOf(js) + {j.id}
    ensures forall id :: HasId(js, id) <==> id in IdsOf(js)
  {
    assert (js + [j])[|js|] == j;
    forall id | HasId(js, id) ensures HasId(js + [j], id) {
      var i :| 0 <= i < |js| && js[i].id == id;
      assert (js + [j])[i].id == id;
    }
    forall id ensures HasId(js, id) <==> id in IdsOf(js) {
      if id in IdsOf(js) {
        var k :| k in js && k.id == id;
      }
    }
  }

  lemma FullStaysFull(s: State, t: State, j: Job, k: Job, v: Verdict)
    requires OfferEffect(s, t, j, v) && LaneFull(s, k)
    ensures LaneFull(t, k)
  {
    SubsetSize(LongPending(s.pending, s.works), LongPending(t.pending, t.works));
  }

  /** One offer keeps the bookkeeping of the pass. */
  lemma OfferKeeps(s: State, t: State, order: seq<Job>, left: map<Id, nat>, dispatched: seq<Job>, at: seq<nat>, n: nat,
                   v: Verdict, w: Weather)
    requires n < |order| && OfferEffect(s, t, order[n], v) && !v.NoPermit?
    requires InOrder(order, left, dispatched, at, n) && s.pending.Keys == left.Keys + IdsOf(dispatched)
    requires v.Refused? ==> exists k :: !w.accepts(k)
    requires (forall k :: w.accepts(k)) ==> Caught(s, order, left, dispatched, n) && Queue(order, left, dispatched, at)
    ensures var sent := if v.Sent? then dispatched + [order[n]] else dispatched;
            var places := if v.Sent? then at + [n] else at;
            && t.pending.Keys == left.Keys + IdsOf(sent)
            && InOrder(order, left, sent, places, n + 1)
            && ((forall k :: w.accepts(k)) ==> Caught(t, order, left, sent, n + 1) && Queue(order, left, sent, places))
  {
    hide LaneFull, HasId, Caught, Queue, InOrder, IdsOf, OfferEffect, Waiting;
    OfferPlaces(s, t, order, left, dispatched, at, n, v);
    if forall k :: w.accepts(k) {
      OfferCatches(s, t, order, left, dispatched, n, v);
      if v.Sent? {
        QueueGrows(s, t, order, left, dispatched, at, n);
      }
    }
  }

  lemma OfferPlaces(s: State, t: State, order: seq<Job>, left: map<Id, nat>, dispatched: seq<Job>, at: seq<nat>, n: nat,
                    v: Verdict)
    requires n < |order| && OfferEffect(s, t, order[n], v)
    requires InOrder(order, left, dispatched, at, n) && s.pending.Keys == left.Keys + IdsOf(dispatched)
    ensures |at| == |dispatched| && forall k :: 0 <= k < |at| ==> at[k] < |order|
    ensures v.Sent? ==> forall k :: 0 <= k < |at| + 1 ==> (at + [n])[k] < |order|
    ensures t.pending.Keys == left.Keys + IdsOf(if v.Sent? then dispatched + [order[n]] else dispatched)
    ensures InOrder(order, left, if v.Sent? then dispatched + [order[n]] else dispatched,
                    if v.Sent? then at + [n] else at, n + 1)
  {
    hide LaneFull, HasId, IdsOf, LongPending;
    HasIdGrows(dispatched, order[n]);
    if v.Sent? {
      assert order[n].id !in s.pending && !order[n].kind.Unknown?;
      assert Waiting(left, order[n]);
    }
  }

  lemma OfferCatches(s: State, t: State, order: seq<Job>, left: map<Id, nat>, dispatched: seq<Job>, n: nat, v: Verdict)
    requires n < |order| && OfferEffect(s, t, order[n], v) && (v.Sent? || v.Skipped?)
    requires s.pending.Keys == left.Keys + IdsOf(dispatched) && Caught(s, order, left, dispatched, n)
    ensures Caught(t, order, left, if v.Sent? then dispatched + [order[n]] else dispatched, n + 1)
  {
    hide LaneFull, HasId;
    HasIdGrows(dispatched, order[n]);
    forall m | 0 <= m < n && LaneFull(s, order[m]) ensures LaneFull(t, order[m]) {
      FullStaysFull(s, t, order[n], order[m], v);
    }
  }

  lemma QueueGrows(s: State, t: State, order: seq<Job>, left: map<Id, nat>, dispatched: seq<Job>, at: seq<nat>, n: nat)
    requires n < |order| && OfferEffect(s, t, order[n], Sent) && InOrder(order, left, dispatched, at, n)
    requires Caught(s, order, left, dispatched, n) && Queue(order, left, dispatched, at)
    ensures Queue(order, left, dispatched + [order[n]], at + [n])
  {
    hide HasId;
    var sent, places := dispatched + [order[n]], at + [n];
    forall k, m | 0 <= k < |places| && 0 <= m < places[k] && Waiting(left, order[m]) && NeedsNoMore(order[m], sent[k])
      ensures HasId(sent[..k], order[m].id)
    {
      if k < |at| {
        assert sent[..k] == dispatched[..k];
      } else {
        assert sent[..k] == dispatched;
      }
    }
  }

  lemma PassFacts(jobs: seq<Job>, left: map<Id, nat>, dispatched: seq<Job>, at: seq<nat>, n: nat)
    requires n <= |jobs| && InOrder(Sort(ServedFirst, jobs), left, dispatched, at, n)
    ensures forall j :: j in dispatched ==> j in jobs && Waiting(left, j)
    ensures Queue(Sort(ServedFirst, jobs), left, dispatched, at) ==> NotOvertaken(jobs, left, dispatched)
  {
    hide HasId, Sort, Waiting;
    var order := Sort(ServedFirst, jobs);
    forall j | j in dispatched ensures j in jobs && Waiting(left, j) {
      var k :| 0 <= k < |dispatched| && dispatched[k] == j;
      assert order[at[k]] in order;
      SortMembers(ServedFirst, jobs, j);
    }
    if Queue(order, left, dispatched, at) {
      forall a, k | a in jobs && Waiting(left, a) && 0 <= k < |dispatched|
                    && NeedsNoMore(a, dispatched[k]) && TurnBefore(a, dispatched[k])
        ensures HasId(dispatched[..k], a.id)
      {
        var m := AheadOf(jobs, a, at[k]);
      }
    }
  }

  /** In the order of a pass a job stands before every job whose turn comes later. */
  lemma AheadOf(jobs: seq<Job>, a: Job, p: nat) returns (m: nat)
    requires a in jobs && p < |jobs| && TurnBefore(a, Sort(ServedFirst, jobs)[p])
    ensures m < p && Sort(ServedFirst, jobs)[m] == a
  {
    var order := Sort(ServedFirst, jobs);
    SortMembers(ServedFirst, jobs, a);
    m :| 0 <= m < |order| && order[m] == a;
    ServedFirstIsTotal();
    SortSorted(ServedFirst, jobs);
    hide Sort;
    assert !ServedFirst(order[p], order[m]);
  }

  lemma ServedFirstIsTotal()
    ensures TotalPreorder(ServedFirst)
  {
  }

  class Dispatcher {
    var permits: int
    var pending: map<Id, nat>
    var works: seq<Work>
    var hand: Hand
    var stopping: bool

    ghost function Snapshot(): State
      reads this
    {
      State(permits, pending, works, hand, stopping)
    }

    constructor ()
      ensures Snapshot() == OPENING
    {
      permits, pending, works, hand, stopping := PERMITS, map[], [], Free, false;
    }

    /** The workers, and whoever stops the service, act; the dispatcher's own state stays. */
    method Workers(moves: seq<Event>) returns (ghost ran: seq<Event>)
      modifies this
      ensures Snapshot() == Outcome(old(Snapshot()), ran)
      ensures WorkersOnly(old(Snapshot()), Snapshot())
    {
      ran := [];
      for i := 0 to |moves|
        invariant Snapshot() == Outcome(old(Snapshot()), ran)
        invariant WorkersOnly(old(Snapshot()), Snapshot())
      {
        hide Apply, Outcome, WorkersOnly;
        var e := moves[i];
        if ByWorkers(e) {
          var s := State(permits, pending, works, hand, stopping);
          var next := Apply(s, e);
          WorkerFrame(s, e);
          OutcomeGrows(old(Snapshot()), ran, e);
          WorkersOnlyJoins(old(Snapshot()), s, next);
          permits, works, stopping := next.permits, next.works, next.stopping;
          ran := ran + [e];
        }
      }
    }

    /** The dispatcher hands a reserved job to the pool, which takes it or refuses it. */
    method Settle(j: Job, w: Weather, n: nat) returns (accepted: bool, ghost ran: seq<Event>)
      requires hand == Reserved(j) && j.id !in pending
      modifies this
      ensures hand.Free? && Snapshot() == Outcome(old(Snapshot()), ran)
      ensures SettleEffect(old(Snapshot()), Snapshot(), j, accepted)
      ensures !accepted ==> !w.accepts(n)
    {
      hide Outcome, Apply, WorkersOnly, Enabled, SettleEffect;
      ghost var reserved := Snapshot();
      ran := Workers(w.workers(4 * n + 2));
      ghost var trying := Snapshot();
      WorkersLeave(reserved, trying);
      SettleStep(trying);
      accepted := w.accepts(n);
      if !accepted {
        permits, hand := permits + 1, Free;
        OutcomeGrows(reserved, ran, Refuse);
        ran := ran + [Refuse];
        RefusedEffect(reserved, trying, j);
        return;
      }
      works, hand := works + [Work(j, Holding)], Submitted(j, |works|);
      OutcomeGrows(reserved, ran, Submit);
      ran := ran + [Submit];
      ghost var submitted := Snapshot();
      ghost var more := Workers(w.workers(4 * n + 3));
      OutcomeJoins(reserved, ran, more);
      ran := ran + more;
      ghost var recording := Snapshot();
      WorkersLeave(submitted, recording);
      SettleStep(recording);
      pending, hand := pending[j.id := hand.ticket], Free;
      OutcomeGrows(reserved, ran, Record);
      ran := ran + [Record];
      SentEffect(reserved, trying, submitted, recording, j);
    }

    /** The dispatcher considers one job; `n` tells its place in the pass. */
    method Offer(j: Job, w: Weather, n: nat) returns (v: Verdict, ghost ran: seq<Event>)
      requires hand.Free?
      modifies this
      ensures hand.Free? && Snapshot() == Outcome(old(Snapshot()), ran)
      ensures OfferEffect(old(Snapshot()), Snapshot(), j, v)
      ensures v.Refused? ==> !w.accepts(n)
    {
      hide Outcome, Apply, WorkersOnly, Enabled, OfferEffect, LaneFull, SettleEffect;
      ghost var before := Snapshot();
      ran := Workers(w.workers(4 * n));
      ghost var seen := Snapshot();
      WorkersLeave(before, seen);
      if stopping || !Waiting(pending, j) || LaneFull(State(permits, pending, works, hand, stopping), j) {
        v := Skipped;
        QuietEffect(before, seen, j, v);
        return;
      }
      ghost var more := Workers(w.workers(4 * n + 1));
      OutcomeJoins(before, ran, more);
      ran := ran + more;
      ghost var ready := Snapshot();
      WorkersOnlyJoins(before, seen, ready);
      WorkersLeave(seen, ready);
      if permits <= 0 {
        v := NoPermit;
        QuietEffect(before, ready, j, v);
        return;
      }
      SameLanes(seen, ready, j);
      permits, hand := permits - 1, Reserved(j);
      AcquireStep(ready, j);
      OutcomeGrows(before, ran, Acquire(j));
      ran := ran + [Acquire(j)];
      ghost var reserved := Snapshot();
      var accepted;
      accepted, more := Settle(j, w, n);
      OutcomeJoins(before, ran, more);
      ran := ran + more;
      v := if accepted then Sent else Refused;
      SettledOffer(before, ready, reserved, Snapshot(), j, accepted);
    }

    /**
      One pass: forget the finished jobs, then offer every recoverable job in
      order of priority until the permits run out. `left` is what was still
      pending when the offers began.
     */
    method Pass(jobs: seq<Job>, w: Weather) returns (dispatched: seq<Job>, ghost left: map<Id, nat>, ghost ran: seq<Event>)
      requires hand.Free?
      modifies this
      ensures hand.Free? && Snapshot() == Outcome(old(Snapshot()), ran)
      ensures left == Unfinished(old(pending), old(works))
      ensures pending.Keys == left.Keys + IdsOf(dispatched)
      ensures forall j :: j in dispatched ==> j in jobs && Waiting(left, j)
      ensures (forall n :: w.accepts(n)) ==> NotOvertaken(jobs, left, dispatched)
    {
      hide Outcome, Apply, OfferEffect, LaneFull, Unfinished;
      dispatched, ran := [], [Prune];
      OutcomeGrows(old(Snapshot()), [], Prune);
      PruneStep(old(Snapshot()));
      pending := Unfinished(pending, works);
      left := pending;
      var order := Sort(ServedFirst, jobs);
      ghost var at: seq<nat> := [];
      var n := 0;
      while n < |order|
        invariant n <= |order| && hand.Free? && Snapshot() == Outcome(old(Snapshot()), ran)
        invariant pending.Keys == left.Keys + IdsOf(dispatched)
        invariant (forall k :: w.accepts(k)) ==> Caught(Snapshot(), order, left, dispatched, n)
        invariant InOrder(order, left, dispatched, at, n)
        invariant (forall k :: w.accepts(k)) ==> Queue(order, left, dispatched, at)
      {
        ghost var before := Snapshot();
        var v, more := Offer(order[n], w, n);
        OutcomeJoins(old(Snapshot()), ran, more);
        ran := ran + more;
        if v.NoPermit? {
          SentNothing(before, Snapshot(), order[n], v);
          break;
        }
        OfferKeeps(before, Snapshot(), order, left, dispatched, at, n, v, w);
        if v.Sent? {
          dispatched, at := dispatched + [order[n]], at + [n];
        }
        n := n + 1;
      }
      PassFacts(jobs, left, dispatched, at, n);
    }
  }

  /** Worker events in front of the dispatcher's next action. */
  lemma WorkersLeave(s: State, t: State)
    requires WorkersOnly(s, t)
    ensures t.pending == s.pending && t.hand == s.hand && (s.stopping ==> t.stopping)
  {
  }

  lemma SameLanes(s: State, t: State, j: Job)
    requires WorkersOnly(s, t)
    ensures LaneFull(s, j) <==> LaneFull(t, j)
  {
    WorkersKeepLanes(s, t);
  }

  lemma AcquireStep(s: State, j: Job)
    requires s.hand.Free? && Waiting(s.pending, j) && !LaneFull(s, j) && s.permits > 0
    ensures Apply(s, Acquire(j)) == s.(permits := s.permits - 1, hand := Reserved(j))
  {
  }

  /** The dispatcher's actions while it holds a reservation. */
  lemma SettleStep(s: State)
    ensures s.hand.Reserved? ==> Apply(s, Refuse) == s.(permits := s.permits + 1, hand := Free)
    ensures s.hand.Reserved? ==>
              Apply(s, Submit) == s.(works := s.works + [Work(s.hand.job, Holding)], hand := Submitted(s.hand.job, |s.works|))
    ensures s.hand.Submitted? ==>
              Apply(s, Record) == s.(pending := s.pending[s.hand.job.id := s.hand.ticket], hand := Free)
  {
  }

  lemma QuietEffect(s: State, t: State, j: Job, v: Verdict)
    requires WorkersOnly(s, t) && (v.Skipped? || v.NoPermit?)
    requires v.Skipped? ==> t.stopping || !Waiting(t.pending, j) || LaneFull(t, j)
    requires s.stopping ==> v.Skipped?
    ensures OfferEffect(s, t, j, v)
  {
    WorkersKeepLanes(s, t);
  }

  lemma RefusedEffect(reserved: State, trying: State, j: Job)
    requires WorkersOnly(reserved, trying)
    ensures SettleEffect(reserved, trying.(permits := trying.permits + 1, hand := Free), j, false)
  {
    WorkersKeepLanes(reserved, trying);
  }

  lemma SentEffect(reserved: State, trying: State, submitted: State, recording: State, j: Job)
    requires WorkersOnly(reserved, trying) && WorkersOnly(submitted, recording) && j.id !in reserved.pending
    requires submitted == trying.(works := trying.works + [Work(j, Holding)], hand := Submitted(j, |trying.works|))
    ensures SettleEffect(reserved, recording.(pending := recording.pending[j.id := |trying.works|], hand := Free), j, true)
  {
    WorkersKeepLanes(reserved, trying);
    WorkersKeepLanes(submitted, recording);
  }

  lemma SettledOffer(s: State, ready: State, reserved: State, t: State, j: Job, accepted: bool)
    requires WorkersOnly(s, ready) && !s.stopping && Waiting(ready.pending, j) && !LaneFull(ready, j)
    requires reserved == ready.(permits := ready.permits - 1, hand := Reserved(j))
    requires SettleEffect(reserved, t, j, accepted)
    ensures OfferEffect(s, t, j, if accepted then Sent else Refused)
  {
    WorkersKeepLanes(s, ready);
  }
}
