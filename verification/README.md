# FieldFlow

FieldFlow schedules one day of technician visits, checks schedules and
simulates them. These files model its decision logic in integer minutes and
cents and prove what the program otherwise only checks at run time.

- **Routes and their checkers.** `Feasibility` states when a day of routes is
  acceptable: a cursor (time and place) runs along each route, enters late
  where a replan fixed a route entry and passes over frozen visits. `Verifier`
  is the imperative checker with running state, `PlanVerifier` the second
  checker that compares neighbours, `CheckerAgreement` relates the two, and
  `AcceptedFields` reads off what they guarantee.
- **Transformations that must stay acceptable.** `Greedy` is the loop shared
  by the baseline (`Baseline`) and the capacity options (`Capacity`,
  `CapacityTargets`, `CapacityTheorems`); `GreedyChoice` says whom it chooses
  and `Maximality` what it leaves behind; `WorkView` and `WorkViewTheorems` cut
  a replan down to its remaining work. `Grid` proves the one-minute slack of
  rounded travel on which maximality rests.
- **The risk trial.** `Risk` specifies one technician's day under random draws,
  `RiskState` is the mutable route state, `Trial` the whole trial over one such
  state per technician. `RiskTimeline`, `NonAnticipation`, `TrialBooks`,
  `TrialPairs`, `EmergencyResponse`, `EmergencyDelay`, `EmergencyLimits`,
  `LastVisit`, `RiskCoupling`, `TrialFields` and `ZeroNoise` prove properties of
  whole runs and of pairs of runs; `PlainPlans` says when a trial simulates a
  committed plan and carries conservation over to all such trials.
- **Figures.** `Kpi`, `Cost`, `CostTheorems`, `PlanFigures`.
- **Smaller machines.** `Dispatch` and `DispatchLoop` (job dispatcher),
  `Applicability` (plan projection over command histories), `Normalize`,
  `NormalizeTheorems`, `NormalizeFixpoint` and `NormalizedFields`, `Closure`,
  `Pareto`.
- `Domain`, `Sorting` and `Routes` hold the entities, Python's stable sort and
  the grouping into routes.

Modelling conventions. An identifier is known by its rank in string order.
Travel is a function of two places, since no shipped provider looks at the
departure time; theorems about rounding assume the triangle inequality up to
one minute, which `Grid` proves for the Euclidean provider. The keyed draws of
a trial are an arbitrary function of the draw's keys, reduced by the modulus.
Content hashes and fingerprints are functions passed as parameters. A scenario
is valid when it satisfies the model validators that matter here: unique ids,
positive service time, shift and overtime bounds, and locks on known, active
orders that the locked technician can serve.

Five behaviours of the code are worth knowing:

- A `STRATEGY_EXPERIMENT` job whose payload lacks `experiment_id` raises before
  any code that releases its permit (backend/main.py:215-219). The permit is
  gone for the life of the process; three such jobs stop the dispatcher
  (`Dispatch.NoLossExactly`, `Dispatch.LostPermitsStarve`). The only writer of
  such jobs always stores the id (backend/storage.py:9098-9106), so for the jobs
  it writes permits are conserved without any condition.
- `baseline_schedule` leaves a locked order unassigned when it no longer fits
  behind its technician's route at its turn, and both checkers then reject the
  plan (`Baseline.LockDroppedExactly`, `Baseline.BaselineAcceptedExactly`).
- An emergency can make a later visit earlier and turn a late order into an
  on-time one, because a leg's draw is keyed by the predecessor. It cannot while
  the emergency outlasts every delay a leg of the responder's route can draw.
  Over all trials this is safe exactly up to a delay limit of 1 percent on
  arbitrary roads with the slack triangle, and exactly up to 56 percent on the
  shipped provider in the service area; the default limit is 35
  (`EmergencyLimits.GainsFromTwoPercent`,
  `EmergencyLimits.ShippedGainsFrom57Percent`).
- A responder may come home one minute after the overtime limit although the
  choice promised otherwise, when the emergency is reported at the very minute
  the last visit ends (`LastVisit.HomeAMinuteLate`). Without noise this is the
  only case, and on roads with the slack triangle one minute is the most.
- Normalising a schedule that lists an order twice may need a second pass to
  settle its `changed` flags (`NormalizeFixpoint.RepeatedOrderIsNotFixed`):
  exactly when sorting the list changes the flag of some order
  (`NormalizeFixpoint.FixedExactly`).

`dafny verify dfyconfig.toml` checks the whole project.

## Model

| member | source | states |
|---|---|---|
| Greedy.Cheapest | backend/scheduler.py:752-755 | the chosen offer is the least by start, then travel, then technician id; an offer list is never empty when it is called |
| GreedyChoice.StepChoosesBest | backend/scheduler.py:738-784 | one turn of the loop: the visit it writes has the earliest legal start, leg and figures of its technician, and no technician with the skills, the lock, the window and the way home could have started earlier, or as early after a shorter leg, or as early after as long a leg under a smaller id; an order is left over only if nobody could take it |
| GreedyChoice.RunChoosesBest | backend/decision.py:983-1047 | the same for every visit a whole run adds and every order it leaves over, each at the turn of its order |
| Greedy.TailIsOrigin | backend/decision.py:991-998 | the tail the append loop starts from is the cursor the verifier would judge a new last visit from |
| Greedy.PlacedRouteAccepted | backend/decision.py:999-1011 | an offer that passes the loop's two inequalities yields a longer route that the verifier accepts |
| Greedy.RunKeepsProgress | backend/decision.py:983-1047 | over the whole loop: routes stay accepted, every pending order ends assigned or unassigned exactly once, locks are respected, nothing placed moves |
| Maximality.DetourIsLater | backend/scheduler.py:745-752 | with the triangle inequality up to one minute and services of at least one minute, going through another customer never makes an order fit again |
| Maximality.RunKeepsNoRoom | backend/decision.py:983-1047 | on roads with the slack triangle, no room now means no room ever: an order that no permitted technician's route can take cannot be taken after the loop has placed any others |
| Maximality.RunIsMaximal | backend/decision.py:983-1047 | no order the loop leaves behind fits behind any permitted technician's final route |
| Maximality.NoRoomMeansNoChange | backend/decision.py:983-1047 | when nothing fits, the loop changes neither routes nor visits and lists every pending order as left over |
| Baseline.BaselineSchedule | backend/scheduler.py:721-797 | the loops over the sorted orders and the candidates compute the specified greedy plan |
| GreedyChoice.BaselineChoosesBest | backend/scheduler.py:752-755 | every visit of the baseline is the best one at the turn of its order: earliest start, then shortest leg, then smallest id, among everybody who could take it |
| GreedyChoice.QueueOrder | backend/scheduler.py:733-738 | orders have their turns by deadline, then by urgency, then by id |
| Baseline.BaselineProgress | backend/scheduler.py:738-784 | for any locks, every baseline route is accepted and every active order is covered exactly once |
| Baseline.LockDroppedExactly | backend/scheduler.py:740-754 | a locked order is left unassigned if and only if it does not fit behind the route its technician has when the order's turn comes |
| Baseline.BaselineAcceptedExactly | backend/scheduler.py:740-754 | the fold verifier accepts the baseline if and only if every locked order fits behind its technician's route at its turn; so does the structural verifier when no work has started |
| Baseline.UnlockedBaselineAccepted | backend/scheduler.py:740-754 | a baseline without locks is always accepted |
| Baseline.BaselineIsMaximal | backend/scheduler.py:738-784 | no unassigned order fits at the tail of a permitted technician's final baseline route |
| Baseline.MaximalExactly | backend/scheduler.py:738-784 | on roads without a leg of more than 679 minutes, the baseline of every valid scenario is maximal if and only if travel obeys the triangle inequality up to one minute |
| Baseline.BaselineMayDropALock | backend/scheduler.py:740-754 | a concrete valid scenario in which the baseline leaves a locked order unassigned |
| Verifier.VerifyCounterfactualSchedule | backend/decision.py:1052-1263 | the reported violations are exactly the set of findings of the specification, and the result is valid exactly when the schedule is accepted and keeps every fixed assignment |
| Verifier.CheckRoute | backend/decision.py:1129-1244 | one pass with a running time and place reports exactly the findings of one route |
| Verifier.FindingsEmpty | backend/decision.py:1075-1263 | no findings if and only if coverage, locks, routes and fixed assignments all hold |
| AcceptedFields.AcceptedVisitFields | backend/decision.py:1155-1236 | every visit of an accepted schedule is a full service by a skilled and permitted technician with its lateness, and unless it is history it starts in its window, not before its report and not before its arrival |
| AcceptedFields.RouteLegFields | backend/decision.py:1181-1192 | without a route entry a planned visit is reached from the depot at the shift start or from the previous visit at its finish |
| AcceptedFields.EntryLegFields | backend/decision.py:1167-1192 | where a route entry takes over, the visit is reached from where and when the entry says |
| AcceptedFields.FollowingLegFields | backend/decision.py:1181-1244 | behind the entry a planned visit is reached from the previous visit at its finish |
| AcceptedFields.ReturnFields | backend/decision.py:1245-1262 | the technician of an accepted route is home within the overtime limit |
| AcceptedFields.EnteredRouteExactly | backend/decision.py:1150-1262 | a route of history and then plan is accepted if and only if its visits are proper services, its planned visits start properly, the first of them is reached from the entry and every other from its predecessor, and the technician is back in time |
| AcceptedFields.FixedExactly | backend/decision.py:1246-1262 | the fixed assignments are kept if and only if each has its visit, by the same technician, at the same place of the route and the same times |
| Feasibility.AcceptedPermutation | backend/decision.py:1129-1138 | the order of the assignment list does not matter: only the routes sorted by sequence do |
| PlanVerifier.VerifySchedule | backend/verification.py:57-475 | the structural checks report no error exactly for sound plans: coverage, locks, started work, visits, neighbouring legs, return, and a first leg judged from the shift, from the execution facts, or not at all if it is frozen as started |
| AcceptedFields.SoundVisitFields | backend/verification.py:359-405 | every visit of a sound plan is a full service by a skilled and permitted technician with its lateness, inside its window and the shift, not before its report and not before its arrival |
| AcceptedFields.SoundLegFields | backend/verification.py:406-475 | on a sound route every leg has its length and is not begun before the technician is free, and the return is within the overtime limit |
| CheckerAgreement.CheckersAgree | backend/verification.py:359-475 | on every full plan, with or without the exemption of a started first visit: the structural verifier accepts and all arrivals are exact if and only if the fold verifier accepts, started work is kept, and a first visit under way started in its window, in the shift and not before its arrival |
| CheckerAgreement.PendingCheckersAgree | backend/verification.py:359-475 | for a plan without started work the fold verifier accepts if and only if the structural verifier does and every arrival is the predecessor's finish plus travel |
| CheckerAgreement.AcceptedRouteIsSound | backend/verification.py:419-489 | from the fold to neighbours: contiguity, exact arrivals, no overlap, first leg and return |
| CheckerAgreement.SoundRouteIsAccepted | backend/decision.py:1129-1244 | from neighbours to the fold: a sound route with exact arrivals is accepted visit by visit |
| CapacityTargets.ChooseChange | backend/decision.py:696-829 | the change each internal option makes, from the request or from the unserved demand, when the option does not apply, and that the changed scenario passes the validators unless both candidate digests are taken |
| CapacityTargets.CandidateIsAdmissible | backend/decision.py:706-740 | a default candidate exists exactly when an order is unserved, has the skills of the most pressing one, and is a valid technician in the service area: the middle shift start lies before the middle shift end |
| CapacityTargets.MiddleKeepsOrder | backend/decision.py:716-723 | lists ordered place by place keep that order in the middle when each is sorted on its own |
| CapacityTargets.BestTraining | backend/decision.py:765-782 | the nested loops find the proposable training with the greatest unlocked penalty, ties by technician and skill, or nothing if there is none |
| CapacityTargets.ProposedExactly | backend/decision.py:766-781 | a training is proposable if and only if it lets a technician serve an unserved order they could not serve before |
| CapacityTargets.ScoreAddsUp | backend/decision.py:774-781 | the score of a training is what dropping the orders it unlocks costs, and ten thousand more for every VIP among them |
| CapacityTargets.MiddleIsMedian | backend/decision.py:716-723 | more than half of the values are at most the middle one and at most half are below it |
| Capacity.CapacityScenario | backend/decision.py:703-829 | applying the chosen change to the copied technicians gives the relaxed scenario and reports whether anything changed |
| PlanFigures.AnHourMore | backend/decision.py:806-829 | a longer shift or more overtime moves the limit by an hour, or up to 1800 and 240, and changes nothing else |
| Capacity.RelaxedIsValid | backend/decision.py:1380-1388 | re-validating the changed scenario never fails for training, longer shifts and overtime, and for a hired candidate exactly if it is a valid technician with a new id |
| Capacity.RelaxRelaxes | backend/decision.py:703-829 | add_technician, add_skill, extend_shift and allow_overtime only relax the rules of the verifier |
| Capacity.AcceptedUnderRelaxation | backend/decision.py:1052-1263 | whatever was accepted stays accepted under relaxed rules |
| Capacity.TailAppendCounterfactual | backend/decision.py:945-1049 | the nested loops over pending orders and technicians compute the specified append |
| GreedyChoice.AppendChoosesBest | backend/decision.py:1009-1012 | every appended visit is the best one at the turn of its order, and nobody could take an order the append leaves over |
| GreedyChoice.WaitingOrder | backend/decision.py:983-990 | pending orders have their turns by deadline, then by the end of the window, then by id |
| GreedyChoice.AppendedOrder | backend/decision.py:1040-1049 | the appended schedule lists exactly the visits of the loop, by technician and along each route |
| CapacityTheorems.CapacitySoundness | backend/decision.py:1517-1537 | for every committed plan and each of the four internal options (a candidate being a valid technician with a new id), the appended schedule is accepted with the base schedule fixed, so the verification afterwards cannot fail |
| CapacityTheorems.OutsourcingSoundness | backend/decision.py:1402-1407 | the base routes with all unassigned orders covered externally are accepted with the base fixed |
| CapacityTheorems.AppendIsMaximal | backend/decision.py:983-1047 | no order still unassigned after an option fits at the tail of a permitted route |
| CapacityTheorems.AppendTwice | backend/decision.py:945-1049 | appending to an appended schedule returns it unchanged |
| CapacityTheorems.SecondAppendChangesNothing | backend/decision.py:945-1049 | the result of every capacity option is a fixed point of the append |
| WorkView.AnalysisWorkView | backend/decision.py:377-421 | the method computes the scoped scenario and a sorted roster whose routes are the unfrozen visits renumbered from one |
| WorkView.Renumber | backend/decision.py:404-410 | every technician's route in the result is the enumerated kept route |
| WorkViewTheorems.ScopedIsValid | backend/decision.py:387-399 | the scoped scenario still satisfies the aggregate validators |
| WorkViewTheorems.ViewIsCommitted | backend/decision.py:377-421 | if a replan is accepted with its route entries and frozen ids, and each entry names the first unfrozen stop or none, the view is accepted for the scoped scenario with nothing left frozen |
| WorkViewTheorems.ReplanCapacitySoundness | backend/decision.py:1303-1537 | view, relax and append in sequence: the final verification accepts every applicable internal option of a replan |
| Grid.Triangle | backend/travel.py:46-50 | Euclidean distance satisfies the triangle inequality (Cauchy-Schwarz, proved here) |
| Grid.GridIsSlackTriangle | backend/travel.py:46-50 | for every scale and every minimum, rounded minutes satisfy m(a,c) <= m(a,b) + m(b,c) + 1 |
| Grid.SlackIsNeeded | backend/travel.py:28-50 | with the shipped scale 0.36 and minimum three the extra minute is reached between opposite corners of the service area |
| Grid.LongestLeg | backend/travel.py:28-50 | no leg between places with coordinates from 0 to 100 takes more than 51 minutes with the shipped scale and minimum |
| RiskState.RiskRouteState.OrderTiming | backend/decision.py:1964-2004 | arrival, start, finish and no-show of the next visit from travel delay, policy and draws |
| TrialFields.VisitTimes | backend/decision.py:1964-2004 | the visit is reached after the leg with at most the drawn delay, starts at the first minute at which the window, the report and the policy allow it, and lasts ten minutes at a closed door and otherwise the service within the jitter |
| TrialFields.NoShowLimits | backend/decision.py:1985-1989 | at zero basis points every door opens and at ten thousand none does |
| RiskState.RiskRouteState.CompleteAssignment | backend/decision.py:2006-2041 | the new state after one visit: clock, place, counters, outcome and window flag |
| RiskState.RiskRouteState.FinishRoute | backend/decision.py:2043-2068 | serving the remaining visits and returning equals the recursive specification |
| RiskState.RiskRouteState.AdvanceToDispatchCheckpoint | backend/decision.py:2070-2125 | the loop stops at the specified checkpoint |
| RiskState.RiskRouteState.ApplyEmergency | backend/decision.py:2127-2150 | dispatch, travel, service and response fields of the emergency |
| RiskState.RiskRouteState.Project | backend/decision.py:2152-2203 | the projection from the information known at the event |
| RiskTimeline.DispatchedBetweenVisits | backend/decision.py:2070-2130 | the dispatch time is the least instant at or after the event among entry time, arrivals, waiting intervals, visit finishes and the time after the return; no leg and no service is cut |
| RiskTimeline.DuringVisit | backend/decision.py:2080-2098 | between two finishes only the arrival and the waiting interval are instants at which a technician may leave |
| RiskTimeline.CheckpointOnTimeline | backend/decision.py:2070-2125 | the checkpoint is a state of the uninterrupted timeline, at most moved up to the next door or home |
| Trial.CandidateProjection | backend/decision.py:2205-2232 | planned emergency finish and planned return of a candidate, without any draw |
| Trial.ChooseResponder | backend/decision.py:2265-2298 | the loop over the sorted technicians selects the specified responder or nobody |
| Trial.ResponderIsBest | backend/decision.py:2272-2291 | the responder is the minimum by projected finish and id among exactly the qualified technicians; nobody if none qualifies |
| EmergencyResponse.PlannedEndIsTheReturn | backend/decision.py:2205-2232 | the planned end of a candidate is never after the return of the run from the same state, whatever the travel delays, and equals it without delay, when services last as planned and every door opens |
| EmergencyResponse.ProjectionIsTheCheckpoint | backend/decision.py:2152-2203 | without noise the projection is the checkpoint of the run, at most one minute later, unless the event falls on the end of the last visit |
| EmergencyResponse.ResponderHomeInTime | backend/decision.py:2284-2290 | without noise a technician who qualifies is home within the overtime limit after the emergency and the rest of the route, unless the event falls on the end of the last visit |
| EmergencyResponse.ResponderHomeWithinAMinute | backend/decision.py:2284-2290 | whenever the event falls, with the slack triangle the limit is passed by at most one minute |
| LastVisit.HomeAMinuteLate | backend/decision.py:2195-2200 | a trial of an accepted plan on the shipped provider in which that minute is lost without any noise: the projection goes home first, the run leaves from the customer |
| Trial.RunTrial | backend/decision.py:1932-2364 | the trial over one mutable state per technician returns the specified outcome |
| EmergencyResponse.TrialAnswers | backend/decision.py:2127-2150 | with a responder, who came, has the skill and is planned to be home in time and to finish the emergency first, it is finished not before dispatch plus leg plus service, is on time exactly if it is finished by its deadline, and counts as late by exactly the minutes after it; without one nothing is reported and everybody who came and has the skill would be home too late |
| NonAnticipation.ProjectionAgrees | backend/decision.py:2152-2203 | two draw functions with the same observed history up to the event give the same projected state |
| NonAnticipation.ResponderIsNonAnticipating | backend/decision.py:2265-2298 | they also give the same candidates and the same responder, whatever they say about anything later |
| TrialBooks.FinalBooks | backend/decision.py:2006-2068 | whatever happens on a route, each of its visits is booked exactly once and as unserved exactly when the customer is drawn absent |
| TrialBooks.MergeBalanced | backend/decision.py:2313-2324 | merging the books of disjoint routes keeps every counter equal to what the outcomes say |
| TrialPairs.TrialConservation | backend/decision.py:1932-2364 | every planned order ends with exactly one outcome; on-time, late and unserved counts add up to the planned orders, plus one exactly for an emergency nobody took |
| TrialPairs.SameUnserved | backend/decision.py:2433-2451 | an order is unserved with the emergency if and only if it is unserved without it |
| TrialPairs.EmergencyKeepsServed | backend/decision.py:2433-2451 | the set of unserved orders is unchanged by an emergency, and the unserved counter rises by one exactly when no technician qualifies |
| TrialPairs.OthersUntouched | backend/decision.py:2313-2319 | every technician but the responder keeps outcomes and overtime |
| TrialFields.TrialOvertime | backend/decision.py:2325-2336 | in every trial each technician who came has an overtime, breached exactly past the limit; the total adds them up and the failure is any breach |
| PlainPlans.CommittedIsPlannedOnce | backend/decision.py:1885-1894 | a trial of a committed plan never plans an order twice, so the statements about trials above hold for all of them |
| PlainPlans.CommittedConservation | backend/decision.py:1932-2364 | in every trial of a committed plan exactly the active orders of the scenario get an outcome, one each, and the counters add up to their number, plus one exactly for an emergency nobody took |
| PlainPlans.CommittedFrame | backend/decision.py:2433-2451 | in every trial of a committed plan an emergency leaves the set of unserved orders unchanged and raises the counter by one exactly when no technician qualifies |
| EmergencyDelay.FinishedBeforeDispatchUntouched | backend/decision.py:2070-2125 | visits finished before the dispatch keep their outcome |
| EmergencyDelay.RemainingVisitsLater | backend/decision.py:2127-2150 | if the emergency lasts longer than the greatest delay each leg of the route can draw, no remaining visit of the responder arrives, starts or finishes earlier |
| EmergencyDelay.EmergencyOnlyDelays | backend/decision.py:2043-2068 | under that condition the responder's return, overtime and lateness never fall and no window violation disappears |
| EmergencyDelay.EmergencyNeverHelps | backend/decision.py:1932-2364 | under that condition on the responder's route, for whole trials: order by order nothing goes from late to on time, no window violation disappears, and neither lateness nor any technician's overtime falls, for any jitter and no-shows |
| EmergencyDelay.PunctualEmergencyNeverHelps | backend/decision.py:1972-1979 | the same for every emergency when no travel delay is drawn |
| EmergencyLimits.SmallDelaysGainNothing | backend/decision.py:1790-1822 | in no trial of a committed plan with a drawn event of 30 to 90 minutes does an emergency improve anything at a delay limit of at most one percent |
| EmergencyLimits.DetourGains | backend/decision.py:1972-1979 | a family of trials of accepted one-visit plans in which the emergency lies on the way, the responder takes it, and a visit that is late without it is on time with it, because the travel draw is keyed by the predecessor |
| EmergencyLimits.GainsFromTwoPercent | backend/decision.py:1972-1979 | over all trials of committed plans on roads with the slack triangle, no emergency improves anything if and only if the delay limit is at most one percent |
| EmergencyLimits.ShippedGainsFrom57Percent | backend/decision.py:1972-1979 | over all such trials on the shipped provider inside the service area, no emergency improves anything if and only if the delay limit is at most 56 percent |
| RiskCoupling.EarliestVisitsNoLater | backend/decision.py:1735-1747 | with the same draws, earliest-feasible execution starts and finishes every visit no later than following the published times |
| RiskCoupling.PolicyDominance | backend/decision.py:1964-2068 | for whole trials without an emergency: no more lateness, overtime or window violations and no fewer on-time orders |
| ZeroNoise.ReplayPublishedTimes | backend/decision.py:1964-2004 | without noise, following the published schedule reproduces each published arrival, start and finish |
| ZeroNoise.ZeroNoiseReplay | backend/decision.py:2366-2392 | for every committed plan whose entries open their routes, the on-time count, total lateness, overtime and unassigned count equal the published KPIs, and none of the failure flags is raised |
| ZeroNoise.FullPlanReplay | backend/decision.py:2366-2392 | the same for every committed full plan, without further assumptions |
| Kpi.CalculateKpis | backend/scheduler.py:312-388 | the integer KPIs: sums over technicians and assignments, counts and missed high priorities |
| Kpi.OnTimeIsTheRest | backend/scheduler.py:379-388 | the subtraction that yields the on-time count gives the number of counted visits that are not late |
| Kpi.OccupiedTelescopes | backend/scheduler.py:332-349 | on a checked route occupied minutes equal return time minus departure, and overtime stays within the limit |
| PlanFigures.RowOfRoute | backend/scheduler.py:332-349 | on a checked route travel is the way from the departure along the doors and home, service is finish minus start and waiting is start minus arrival |
| PlanFigures.TotalsOfPlan | backend/scheduler.py:332-353 | the totals of a committed plan equal sums over its assignments in whatever order they are listed, plus one way home per route |
| PlanFigures.HighMissedCounts | backend/scheduler.py:383-387 | the missed high priorities are the unassigned urgent and high orders, each once |
| PlanFigures.OnlyActiveCount | backend/scheduler.py:372-382 | late and on-time counts and the late minutes are those of the visits of active orders |
| Cost.AnalyzePlanCost | backend/decision.py:447-586 | the breakdown of a plan; every kind of ledger line adds up to its field, all lines to the total impact, and the technician costs to the labour cost and to the lines booked for each technician; the salaried mode is refused |
| Cost.CostsAddUp | backend/decision.py:481-530 | with one KPI row per technician the technician costs sum to total labour |
| Cost.BillBalances | backend/decision.py:510-528 | the technicians' ledger lines sum, kind by kind, to the labour totals and contain no zero line |
| PlanFigures.LostByPriority | backend/decision.py:535-549 | lost revenue is the number of unassigned orders of each priority at its rate and the premium of every VIP |
| PlanFigures.OvertimeCharge | backend/decision.py:500-512 | the overtime premium is the wage at the premium rounded down, and each component is charged only if its source is on |
| PlanFigures.RegularMinutesAre | backend/decision.py:486-499 | regular minutes are the occupied minutes or the part of the paid shift from the technician's own start, else the common one, else all of it, and nothing for a technician the scope leaves out |
| PlanFigures.CommittedIsRegular | backend/decision.py:485-500 | for a full plan in the paid shift the committed day is what the regular labour costs |
| PlanFigures.PenaltyIsTotalLate | backend/decision.py:533-534 | the minutes a committed plan is penalised for are its published lateness |
| CostTheorems.FullShiftGap | backend/decision.py:486-518 | paid-shift minus occupied-minutes labour of one technician is the rate times max(0, shift minus occupied) |
| CostTheorems.RemainingGap | backend/decision.py:490-498 | for remaining work, counted from the entry or from the time of the analysis, the difference is the idle minutes before the shift end, plus a counted start past it, minus occupied minutes before the counted start, times the rate |
| CostTheorems.PaidShiftCostsTheIdleTime | backend/decision.py:447-530 | for a checked full plan the two labour totals differ by exactly the cost of the unoccupied shift minutes |
| Dispatch.EveryInterleaving | backend/main.py:239-276 | every interleaving of dispatcher, pool and workers keeps the invariant |
| Dispatch.PermitsConserved | backend/main.py:193-194 | permits plus permits held never exceed three, and are three exactly while no job was lost |
| Dispatch.ReleasedExactlyOnce | backend/main.py:214-227 | each job releases at most once, and exactly once by the time its future is done unless it is an experiment without an id, which never releases |
| Dispatch.OnlyLeaksAreLost | backend/main.py:215-219 | a permit is lost only by an experiment whose payload has no experiment_id |
| Dispatch.NoLossExactly | backend/main.py:215-219 | no interleaving over a set of jobs loses a permit if and only if every experiment in it has its id |
| Dispatch.NoTwins | backend/main.py:249-250 | no job id runs twice at once |
| Dispatch.TwoLongLanes | backend/main.py:253-259 | at most two long jobs hold permits |
| Dispatch.AShortJobHolds | backend/main.py:253-261 | when all permits are out and none is lost, a short job holds one of them |
| Dispatch.ShortJobsNeedOnlyAPermit | backend/main.py:248-261 | a baseline, a replan and a cost analysis that is not pending waits for nothing but a permit |
| Dispatch.LostPermitsStarve | backend/main.py:260-261 | after three lost permits nothing is ever dispatched again, whatever happens later |
| DispatchLoop.Dispatcher.Offer | backend/main.py:248-272 | considering one job with workers acting between any two actions is an interleaving; a sent job was waiting in a lane that was not full, a skipped job has a reason that still holds |
| DispatchLoop.Dispatcher.Pass | backend/main.py:239-272 | one scan is an interleaving; in a scan without refused submissions no job is dispatched ahead of one whose turn comes first (by thirty seconds of waiting, then short before long, then age) and that needs no other lane |
| Applicability.ReducePlanApplicability | backend/applicability.py:72-129 | the branches over the field impact compute the specified projection |
| Applicability.BlockedExactly | backend/applicability.py:92-128 | over every history from a fresh plan: an id is blocked if and only if a feasibility or execution command flagged it while assigned and eligible and it stayed eligible ever since |
| Applicability.BlockedIsOpen | backend/applicability.py:88-103 | a blocked id is assigned and, in the last scenario, not started or completed |
| Applicability.BlockedStopsTheRoute | backend/applicability.py:127-128 | a non-empty blocked set means the route is not executable |
| Applicability.ExecutableExactly | backend/applicability.py:119-128 | the route is executable exactly while no feasibility or execution command left anything blocked |
| Applicability.FlagsExactly | backend/applicability.py:104-121 | each flag tells exactly which kinds of commands the plan has seen, and coverage is exact at every step |
| Applicability.NeverRecovers | backend/applicability.py:72-129 | no later command restores a currency or executability flag |
| Applicability.StatusExactly | backend/applicability.py:38-50 | the status is partial exactly while open demand is outside the plan, and otherwise current exactly when only metadata changes and added capacity were seen |
| Applicability.FromLegacyStatus | backend/applicability.py:53-69 | a legacy status read as a projection gives the same status back, and stale rows are not executable |
| Normalize.NormalizeSchedule | backend/normalization.py:53-225 | routes are rebuilt technician by technician in sequence order, every visit of an order with the flag of the last one listed; an unknown technician or order fails |
| NormalizedFields.NormalizedVisit | backend/normalization.py:95-205 | every visit of the result has the lateness of its finish, is locked exactly if a lock names it and its technician, has the leg from its predecessor on the route or from where the day begins, and evidence that agrees with these and with the KPI row of its route |
| NormalizedFields.AlternativesAre | backend/normalization.py:78-93 | the alternatives are the other technicians with the skills, each at the cost of the best place on their route |
| NormalizedFields.AlternativeStops | backend/normalization.py:81-87 | with one holder per order the stops of an alternative are all the doors of that technician's route |
| NormalizedFields.NormalizedIdentity | backend/normalization.py:168-171 | a booking keeps the sequence and the hash it was first given |
| NormalizedFields.AcceptedIsOnlySorted | backend/normalization.py:53-225 | normalising a full plan the verifier accepts returns exactly its assignments, sorted by technician and sequence |
| NormalizeFixpoint.FixedExactly | backend/normalization.py:53-225 | normalising twice is normalising once if and only if sorting the given list by technician and sequence changes no order's changed flag |
| NormalizeFixpoint.FixedForEverySource | backend/normalization.py:15-50 | it is so for every source the schedule may be compared with if and only if the last listed visit of each order and its last visit in sorted order agree on technician, start and recorded predecessor |
| NormalizeFixpoint.NormalizedIsFixpoint | backend/normalization.py:53-225 | in particular normalising twice is normalising once whenever no order is listed twice, and no order is listed twice afterwards |
| NormalizeFixpoint.RepeatedOrderIsNotFixed | backend/normalization.py:40-50 | a concrete list in which one technician holds an order twice and the second pass changes a flag again, because the flags are kept per order and the last listed visit wins |
| NormalizeTheorems.PredecessorOf | backend/normalization.py:24-39 | with one holder per order the recorded predecessor is the one on the holder's route, however the groups are visited |
| NormalizeFixpoint.CompareDerived | backend/verification.py:547-613 | the comparison reports exactly the fields that differ from the renormalised schedule |
| NormalizeFixpoint.NormalizedHasNoMismatch | backend/verification.py:547-613 | no travel, lateness, changed, locked, evidence, KPI or score mismatch can be reported for a normalised schedule without repeated orders |
| Closure.SourceClosure | backend/provenance.py:98-113 | the worklist terminates and returns, sorted and once each, exactly the defined names reachable from the required names |
| Closure.ReachableIsLeast | backend/provenance.py:98-106 | that set is the least one that holds the required definitions and is closed under mention |
| Pareto.MarkParetoCandidates | backend/main.py:5327-5355 | each candidate gets exactly the ids of its dominators in list order and is optimal exactly when there are none |
| Pareto.StrictPartialOrder | backend/main.py:5338-5353 | on a grid coarser than the tolerance, dominance is irreflexive, asymmetric and transitive |
| Pareto.DominatedByOptimal | backend/main.py:5327-5355 | every candidate is optimal or dominated by an optimal one |
| Pareto.OptimalExactlyOnCoarseGrids | backend/main.py:5338-5353 | every non-empty list with metrics on a grid has an optimal candidate if and only if the step exceeds the tolerance; four decimals do |

## Left out

- Verifier.VerifyCounterfactualSchedule: the violations are compared as a set; their order in the report and their messages are not modelled.
- PlanVerifier.VerifySchedule: of the planning and execution context only what judges the first leg of a route is modelled; the replan cutoff, the comparison of started assignments with their source and the fingerprint and hash comparisons are not part of this model.
- CheckerAgreement.CheckersAgree: for full plans, which the fold verifier checks without route entries; technicians placed by execution facts are outside it.
- Baseline.MaximalExactly: with longer legs a violated triangle need not fit into any day; that the slack triangle suffices is proved without the bound (BaselineIsMaximal).
- CapacityTargets.ChooseChange: the two digests a candidate id is taken from are parameters, and means are over exact reals; `relocate_one_technician_start` is not modelled, as its result may legitimately fail the verification (backend/decision.py:965-975).
- Capacity.TailAppendCounterfactual: explanations, evidence and the recomputed KPIs of the result are dropped.
- WorkView.AnalysisWorkView: only the branch of a replan with a publication context; for every other plan the program returns its input unchanged. The recomputed KPIs are dropped.
- Baseline.BaselineSchedule: the diagnosis of why an order stayed unassigned is reduced to the fact that it did.
- Trial.RunTrial: which technicians are absent and whether and where an emergency happens are parameters; `work_order_late_minutes` repeats the lateness kept in the outcomes and is not kept twice.
- Risk draws: entity ids that contain separators could give two different legs the same textual key; the model keys a draw by the ids themselves.
- EmergencyResponse.ProjectionIsTheCheckpoint: needs a world without noise, in which nobody needs time to stay where they are; with noise the projection is a guess by design.
- ZeroNoise.ZeroNoiseReplay: with route entries, assumes that an entry names nothing or the first visit of its route, and that routes end at the technician's depot, as in a work view; FullPlanReplay needs neither.
- EmergencyLimits.RealTrial: the emergency may lie anywhere (for the shipped provider, anywhere in the service area), which includes every place the program draws.
- Kpi.CalculateKpis: only integer minutes and counts; ratios, percentiles, stability figures and four-decimal rounding are left out.
- Cost.AnalyzePlanCost: the fixed and horizon costs of capacity options and the aliases kept for old clients are left out.
- Cost.CostsAddUp: needs one KPI row per technician, which `calculate_kpis` produces; two rows of one technician would overwrite each other in the dictionary.
- Grid.GridIsSlackTriangle: over exact real distances; the rounding error of floating-point `hypot` is not modelled. An imported matrix need not satisfy any triangle inequality.
- Dispatch.PermitsConserved: a pool that queues a job and then fails to start a thread, and the cancelled futures at shutdown, are not modelled; store failures that abort a scan leave the dispatcher's state as it was.
- DispatchLoop.Dispatcher.Pass: the waiting time is computed from the creation time outside the model, and "younger" compares the creation stamps the program sorts by.
- Applicability.ReducePlanApplicability: the blocked ids are kept as a set, not as a sorted list; revision numbers and hashes of the projection are dropped.
- Normalize.NormalizeSchedule: the explanation texts are dropped, and visits are rebuilt route by route into a new list instead of being rewritten in place, so aliasing between the list and the grouped routes is not modelled.
- Closure.SourceClosure: parsing the module into definitions and mentioned names is a parameter.
- Pareto.MarkParetoCandidates: completion and punctuality enter as the differences the program forms from them, over exact reals.
- `optimized_schedule` and `replan_schedule`: the routes come from a solver that is not visible; nothing is claimed about its search.
- Storage, publication, leases, command records, HTTP handlers, reports, front end, migrations, scripts and benchmarks.
- Legacy validators, alias fields, timestamps, labels, suggestions and message texts.
