/**
  One Monte Carlo trial of `simulate_plan_risk`, as functions on route states:
  travel, wait, service and return of one technician, the checkpoint at which an
  emergency may be dispatched, and the projection the responder is chosen by.
  Every random number is a function of its key alone.
 */
module Risk {
  import opened Domain

  // ----- keyed randomness -----

  /** What a leg starts from; the key of its travel delay. */
  datatype Anchor =
    | DepotOf(tech: Id)
    | EntryOf(tech: Id, place: Point)
    | VisitTo(order: Id)
    | EmergencyBy(tech: Id)

  datatype DrawKey =
    | TravelDraw(from: Anchor, order: Id)
    | ReturnDraw(from: Anchor, tech: Id)
    | EmergencyTravelDraw(from: Anchor)
    | NoShowDraw(order: Id)
    | ServiceDraw(order: Id)

  /** The digests of one seed and trial, before reduction. */
  type Draws = DrawKey -> nat

  function KeyedDraw(d: Draws, k: DrawKey, modulo: int): (r: nat)
    ensures r <= Max(0, modulo - 1)
  {
    if modulo <= 0 then 0 else d(k) % modulo
  }

  /** Planned minutes stretched by a percentage, rounded up. */
  function Delayed(minutes: nat, percent: nat): (r: nat)
    ensures r >= minutes
    ensures percent == 0 ==> r == minutes
  {
    assert minutes * (100 + percent) == minutes * 100 + minutes * percent;
    (minutes * (100 + percent) + 99) / 100
  }

  // ----- the world of a trial -----

  datatype World = World(
    technicians: map<Id, Technician>,
    orders: map<Id, WorkOrder>,
    routes: map<Id, seq<Assignment>>,
    entries: map<Id, RouteEntry>,
    travel: Travel,
    draws: Draws,
    delayMax: nat,
    jitter: nat,
    noShow: nat,
    follow: bool)

  datatype Event = Event(time: int, place: Point, duration: nat, skill: nat, slaDeadline: int)

  function RouteFor(w: World, t: Id): seq<Assignment> {
    if t in w.routes then w.routes[t] else []
  }

  /** Keys name what they hold, every visit is a known order of its own technician, jitter is a percentage. */
  ghost predicate WellFormed(w: World) {
    && (forall t :: t in w.technicians ==> w.technicians[t].id == t)
    && (forall o :: o in w.orders ==> w.orders[o].id == o)
    && (forall t, k :: t in w.routes && 0 <= k < |w.routes[t]| ==>
          w.routes[t][k].orderId in w.orders && w.routes[t][k].techId == t)
    && w.jitter <= 100
  }

  function Terminal(w: World, t: Id): Point
    requires t in w.technicians
  {
    if t in w.entries then w.entries[t].returnTo else w.technicians[t].depot
  }

  // ----- the state of one route -----

  datatype Disposition = OnTime | Late | NoShowUnserved | AbsenceUnserved | PlanUnserved

  datatype Outcome = Outcome(disposition: Disposition, late: Option<int>, tech: Option<Id>)

  /** What the visits served so far add up to. */
  datatype Tally = Tally(
    onTime: int,
    totalLate: int,
    unserved: int,
    noShowFailure: bool,
    windowFailure: bool,
    outcomes: map<Id, Outcome>,
    windowViolations: map<Id, bool>)

  /** The emergency fields of a route state. */
  datatype Response = Response(
    completed: bool,
    onTime: bool,
    late: int,
    dispatchTime: Option<int>,
    finishTime: Option<int>,
    dispatchPlace: Option<Point>)

  datatype RouteState = RouteState(
    tech: Id,
    current: int,
    location: Point,
    predecessor: Anchor,
    next: nat,
    ready: Option<nat>,
    returned: bool,
    totalOvertime: int,
    overtimeFailure: bool,
    tally: Tally,
    response: Response)

  const EMPTY_TALLY: Tally := Tally(0, 0, 0, false, false, map[], map[])

  const NO_RESPONSE: Response := Response(false, false, 0, None, None, None)

  function NewState(w: World, t: Id): RouteState
    requires t in w.technicians
  {
    var entered := t in w.entries;
    var place := if entered then w.entries[t].location else w.technicians[t].depot;
    RouteState(t, if entered then w.entries[t].availableAt else w.technicians[t].shiftStart, place,
               if entered then Anchor.EntryOf(t, place) else DepotOf(t), 0, None, false, 0, false,
               EMPTY_TALLY, NO_RESPONSE)
  }

  /** The state belongs to a route of this world and has not run past it. */
  ghost predicate Fits(w: World, s: RouteState) {
    WellFormed(w) && s.tech in w.technicians && s.next <= |RouteFor(w, s.tech)|
  }

  // ----- one visit -----

  datatype Timing = Timing(arrival: int, start: int, finish: int, noShow: bool)

  predicate NoShowOf(w: World, o: Id) {
    KeyedDraw(w.draws, NoShowDraw(o), 10000) < w.noShow
  }

  /** Service minutes after jitter, rounded to nearest, at least one. */
  function ServiceMinutes(w: World, o: WorkOrder): (r: int)
    requires w.jitter <= 100
    ensures r >= 1
    ensures w.jitter == 0 && o.duration >= 1 ==> r == o.duration
  {
    var percent := 100 - w.jitter + KeyedDraw(w.draws, ServiceDraw(o.id), 2 * w.jitter + 1);
    Max(1, (o.duration * percent + 50) / 100)
  }

  /** How long the technician stays: the service, or ten minutes at a closed door. */
  function Stay(w: World, o: WorkOrder): (r: int)
    requires w.jitter <= 100
    ensures r >= 1
  {
    if NoShowOf(w, o.id) then 10 else ServiceMinutes(w, o)
  }

  function ArrivalAt(w: World, s: RouteState, o: WorkOrder): (r: int)
    ensures r >= s.current
  {
    if s.ready == Some(s.next) then s.current
    else s.current + Delayed(w.travel(s.location, o.location),
                             KeyedDraw(w.draws, TravelDraw(s.predecessor, o.id), w.delayMax + 1))
  }

  function StartFrom(w: World, a: Assignment, o: WorkOrder, arrival: int): (r: int)
    ensures r >= arrival
  {
    var ready := Max(arrival, ReadyAt(o));
    if w.follow then Max(ready, a.start) else ready
  }

  function OrderTiming(w: World, s: RouteState, a: Assignment): (r: Timing)
    requires a.orderId in w.orders && w.jitter <= 100
    ensures s.current <= r.arrival <= r.start < r.finish
  {
    var o := w.orders[a.orderId];
    var arrival := ArrivalAt(w, s, o);
    var start := StartFrom(w, a, o, arrival);
    Timing(arrival, start, start + Stay(w, o), NoShowOf(w, o.id))
  }

  /** The bookkeeping of one finished visit. */
  function Record(y: Tally, tech: Id, o: WorkOrder, start: int, finish: int, noShow: bool): Tally {
    var violated := start > o.windowEnd;
    var late := Max(0, finish - o.slaDeadline);
    var seen := y.(windowViolations := y.windowViolations[o.id := violated],
                   windowFailure := y.windowFailure || violated);
    if noShow then
      seen.(unserved := y.unserved + 1, noShowFailure := true,
            outcomes := y.outcomes[o.id := Outcome(NoShowUnserved, None, Some(tech))])
    else
      seen.(totalLate := y.totalLate + late, onTime := y.onTime + (if late == 0 then 1 else 0),
            outcomes := y.outcomes[o.id := Outcome(if late == 0 then OnTime else Disposition.Late, Some(late), Some(tech))])
  }

  function Complete(s: RouteState, o: WorkOrder, start: int, finish: int, noShow: bool): RouteState {
    s.(ready := None, current := finish, location := o.location, predecessor := VisitTo(o.id), next := s.next + 1,
       tally := Record(s.tally, s.tech, o, start, finish, noShow))
  }

  /** Serves the next visit of the route. */
  function Serve(w: World, s: RouteState): (r: RouteState)
    requires Fits(w, s) && s.next < |RouteFor(w, s.tech)|
    ensures Fits(w, r) && r.next == s.next + 1 && r.tech == s.tech && r.ready == None
  {
    var a := RouteFor(w, s.tech)[s.next];
    var t := OrderTiming(w, s, a);
    Complete(s, w.orders[a.orderId], t.start, t.finish, t.noShow)
  }

  // ----- the whole route -----

  function ReturnFinish(w: World, s: RouteState): (r: int)
    requires s.tech in w.technicians
    ensures r >= s.current
  {
    s.current + Delayed(w.travel(s.location, Terminal(w, s.tech)),
                        KeyedDraw(w.draws, ReturnDraw(s.predecessor, s.tech), w.delayMax + 1))
  }

  /** The return leg, arriving home at `ReturnFinish` and idle until `until`. */
  function ReturnHome(w: World, s: RouteState, until: int): RouteState
    requires s.tech in w.technicians
  {
    var home := ReturnFinish(w, s);
    var overtime := Max(0, home - w.technicians[s.tech].shiftEnd);
    s.(current := Max(home, until), location := Terminal(w, s.tech), predecessor := DepotOf(s.tech), returned := true,
       totalOvertime := overtime, overtimeFailure := overtime > w.technicians[s.tech].overtimeLimit)
  }

  function ServeAll(w: World, s: RouteState): (r: RouteState)
    requires Fits(w, s)
    ensures Fits(w, r) && r.next == |RouteFor(w, s.tech)| && r.tech == s.tech
    decreases |RouteFor(w, s.tech)| - s.next
  {
    if s.next == |RouteFor(w, s.tech)| then s else ServeAll(w, Serve(w, s))
  }

  function FinishRoute(w: World, s: RouteState): (r: RouteState)
    requires Fits(w, s)
    ensures r.tech == s.tech
  {
    var served := ServeAll(w, s);
    if served.returned || (RouteFor(w, s.tech) == [] && !served.response.completed) then served
    else ReturnHome(w, served, ReturnFinish(w, served))
  }

  // ----- the emergency -----

  /** Arrived at (or waiting at) the next customer. */
  function WaitingAtCustomer(s: RouteState, o: WorkOrder, at: int): RouteState {
    s.(current := at, location := o.location, predecessor := VisitTo(o.id), ready := Some(s.next))
  }

  /** Advances to the dispatch checkpoint without cutting a leg or a service. */
  function ToCheckpoint(w: World, s: RouteState, e: Event): (r: RouteState)
    requires Fits(w, s)
    ensures Fits(w, r) && r.tech == s.tech
    decreases |RouteFor(w, s.tech)| - s.next
  {
    if e.time <= s.current then s
    else if s.next < |RouteFor(w, s.tech)| then
      var a := RouteFor(w, s.tech)[s.next];
      var o, t := w.orders[a.orderId], OrderTiming(w, s, a);
      if e.time <= t.arrival then WaitingAtCustomer(s, o, t.arrival)
      else if e.time < t.start then WaitingAtCustomer(s, o, e.time)
      else if e.time <= t.finish then Complete(s, o, t.start, t.finish, t.noShow)
      else ToCheckpoint(w, Complete(s, o, t.start, t.finish, t.noShow), e)
    else ReturnHome(w, s, e.time)
  }

  function ApplyEmergency(w: World, s: RouteState, e: Event): RouteState {
    var depart := Max(s.current, e.time);
    var travel := Delayed(w.travel(s.location, e.place),
                          KeyedDraw(w.draws, EmergencyTravelDraw(s.predecessor), w.delayMax + 1));
    var finish := depart + travel + e.duration;
    s.(current := finish, location := e.place, predecessor := EmergencyBy(s.tech), ready := None, returned := false,
       response := Response(true, finish <= e.slaDeadline, Max(0, finish - e.slaDeadline), Some(depart), Some(finish),
                            Some(s.location)))
  }

  /** The responder's whole timeline: checkpoint, emergency, rest of the route. */
  function Respond(w: World, t: Id, e: Event): RouteState
    requires WellFormed(w) && t in w.technicians
  {
    FinishRoute(w, ApplyEmergency(w, ToCheckpoint(w, NewState(w, t), e), e))
  }

  // ----- choosing the responder -----

  /** Projects the checkpoint from what has been observed by the time of the event. */
  function ProjectFrom(w: World, s: RouteState, e: Event): (r: RouteState)
    requires Fits(w, s)
    ensures Fits(w, r) && r.tech == s.tech
    decreases |RouteFor(w, s.tech)| - s.next
  {
    if s.next < |RouteFor(w, s.tech)| then
      if e.time <= s.current then s
      else
        var a := RouteFor(w, s.tech)[s.next];
        var o, t := w.orders[a.orderId], OrderTiming(w, s, a);
        if t.finish <= e.time then ProjectFrom(w, Complete(s, o, t.start, t.finish, t.noShow), e)
        else if e.time <= t.arrival then
          WaitingAtCustomer(s, o, Max(e.time + 1, s.current + w.travel(s.location, o.location)))
        else if e.time < t.start then WaitingAtCustomer(s, o, e.time)
        else
          s.(current := e.time + Max(1, o.duration - (e.time - t.start)), location := o.location,
             predecessor := VisitTo(o.id), next := s.next + 1, ready := None)
    else if s.location != Terminal(w, s.tech) then
      s.(current := Max(e.time + 1, s.current + w.travel(s.location, Terminal(w, s.tech))),
         location := Terminal(w, s.tech), predecessor := DepotOf(s.tech), returned := true)
    else s.(current := Max(s.current, e.time))
  }

  function Projection(w: World, t: Id, e: Event): RouteState
    requires WellFormed(w) && t in w.technicians
  {
    ProjectFrom(w, NewState(w, t), e)
  }

  /** The planned rest of the route from place `p` at time `now`, without any draw. */
  function PlannedEnd(w: World, t: Id, k: nat, now: int, p: Point): int
    requires WellFormed(w) && t in w.technicians && k <= |RouteFor(w, t)|
    decreases |RouteFor(w, t)| - k
  {
    if k == |RouteFor(w, t)| then now + w.travel(p, Terminal(w, t))
    else
      var a := RouteFor(w, t)[k];
      var o := w.orders[a.orderId];
      PlannedEnd(w, t, k + 1, StartFrom(w, a, o, now + w.travel(p, o.location)) + o.duration, o.location)
  }

  function EmergencyFinish(w: World, s: RouteState, e: Event): int {
    Max(s.current, e.time) + w.travel(s.location, e.place) + e.duration
  }

  predicate Qualifies(w: World, absent: set<Id>, e: Event, t: Id)
    requires WellFormed(w) && t in w.technicians
  {
    t !in absent && e.skill in w.technicians[t].skills &&
    var s := Projection(w, t, e);
    PlannedEnd(w, t, s.next, EmergencyFinish(w, s, e), e.place)
      <= w.technicians[t].shiftEnd + w.technicians[t].overtimeLimit
  }

  datatype Choice = Choice(finish: int, tech: Id)

  /** `min(choices, key=(finish, technician_id))`. */
  predicate Sooner(a: Choice, b: Choice) {
    a.finish < b.finish || (a.finish == b.finish && a.tech.rank <= b.tech.rank)
  }
}
