/**
  One run of the mine: `n` trucks, `m` unload stations, an unbounded mining
  site, and a virtual clock run until horizon `t`. The clock stops before any
  event due at the horizon itself is served, so a truck in the middle of a
  phase at `t` is left there with that phase unrecorded.
 */
module Simulation {
  import opened Wrappers
  import opened Agenda
  import opened Resources
  import opened Trucks
  import opened Engine
  import opened StepProofs
  import opened Contention
  import opened Horizon
  import opened Wakeups

  /** The uniform samples of the random source all lie in [0, 1). */
  ghost predicate SamplesInRange(rng: nat -> real) {
    forall k: nat :: 0.0 <= rng(k) < 1.0
  }

  /** An event is pending before time `t`. */
  predicate DueBefore(w: World, t: real) {
    |w.agenda| > 0 && w.agenda[0].due < t
  }

  /** The clock stands at the horizon and nothing is pending before it. */
  ghost predicate Halted(w: World, t: real) {
    w.now == t && !DueBefore(w, t)
  }

  /** Moving the clock up to a time no pending event precedes keeps the world consistent. */
  lemma ClockToHorizon(w: World, t: real)
    requires Inv(w) && w.now <= t
    requires !DueBefore(w, t)
    ensures Inv(w.(now := t))
  {
    var w' := w.(now := t);
    if |w.agenda| > 0 {
      HeadIsEarliest(w.agenda);
    }
    forall j | 0 <= j < |w'.pcs|
      ensures TruckOk(w', j)
    {
      assert TruckOk(w, j);
    }
  }

  /**
    Serves pending events in order while the earliest is due before `t`, then
    sets the clock to `t`; `rng(k)` is the `k`-th sample of the random source.
    At most `fuel` events are served: with too little fuel the run stops early,
    before the horizon.
   */
  function Run(w: World, t: real, rng: nat -> real, fuel: nat): (r: World)
    requires Inv(w) && w.now <= t && SamplesInRange(rng)
    ensures w.now <= r.now <= t
    decreases fuel
  {
    if !DueBefore(w, t) then
      w.(now := t)
    else if fuel == 0 then
      w
    else
      var u := rng(w.drawn);
      StepKeepsInv(w, u);
      Run(Step(w, u), t, rng, fuel - 1)
  }

  /**
    Induction over a run: a property of consistent worlds that every step
    before the horizon keeps, and that moving the clock to the horizon keeps,
    holds after the run.
   */
  lemma {:induction false} RunKeeps(w: World, t: real, rng: nat -> real, fuel: nat, p: World -> bool)
    requires Inv(w) && w.now <= t && SamplesInRange(rng)
    requires p(w)
    requires forall x: World, u: real {:trigger Step(x, u), p(x)} ::
               Inv(x) && DueBefore(x, t) && 0.0 <= u < 1.0 && p(x) ==> p(Step(x, u))
    requires forall x: World {:trigger p(x.(now := t))} ::
               Inv(x) && x.now <= t && !DueBefore(x, t) && p(x) ==> p(x.(now := t))
    ensures p(Run(w, t, rng, fuel))
    decreases fuel
  {
    // what a step does is irrelevant here; only the hypotheses about it are used
    hide Step;
    if !DueBefore(w, t) {
      assert Run(w, t, rng, fuel) == w.(now := t);
    } else if fuel == 0 {
      assert Run(w, t, rng, fuel) == w;
    } else {
      var u := rng(w.drawn);
      StepKeepsInv(w, u);
      RunKeeps(Step(w, u), t, rng, fuel - 1, p);
      assert Run(w, t, rng, fuel) == Run(Step(w, u), t, rng, fuel - 1);
    }
  }

  /** A run keeps the world consistent. */
  lemma RunKeepsInv(w: World, t: real, rng: nat -> real, fuel: nat)
    requires Inv(w) && w.now <= t && SamplesInRange(rng)
    ensures Inv(Run(w, t, rng, fuel))
  {
    forall x: World, u: real | Inv(x) && DueBefore(x, t) && 0.0 <= u < 1.0
      ensures Inv(Step(x, u))
    {
      StepKeepsInv(x, u);
    }
    forall x: World | Inv(x) && x.now <= t && !DueBefore(x, t)
      ensures Inv(x.(now := t))
    {
      ClockToHorizon(x, t);
    }
    RunKeeps(w, t, rng, fuel, Inv);
  }

  /**
    A run ends at the horizon with nothing pending before it, unless it runs
    out of fuel first: a run that stops short has served exactly `fuel` wake-ups.
   */
  lemma {:induction false} RunEnds(w: World, t: real, rng: nat -> real, fuel: nat)
    requires Inv(w) && w.now <= t && SamplesInRange(rng)
    ensures var r := Run(w, t, rng, fuel);
            && |r.trucks| == |r.pcs| == |w.pcs|
            && (Halted(r, t) || (r.now < t && DueBefore(r, t) && EventsServed(r) == EventsServed(w) + fuel))
    decreases fuel
  {
    hide Step;
    if !DueBefore(w, t) {
      assert Run(w, t, rng, fuel) == w.(now := t);
    } else if fuel == 0 {
      assert Run(w, t, rng, fuel) == w;
      HeadIsEarliest(w.agenda);
      assert w.agenda[0] in w.agenda;
    } else {
      var u := rng(w.drawn);
      StepKeepsInv(w, u);
      StepServesOne(w, u);
      RunEnds(Step(w, u), t, rng, fuel - 1);
      assert Run(w, t, rng, fuel) == Run(Step(w, u), t, rng, fuel - 1);
    }
  }

  /** `x` has the trucks and the stations of `w`, none of whose counters has moved backwards. */
  ghost predicate AdvancedFrom(w: World, x: World) {
    && |x.trucks| == |w.trucks| && |x.pcs| == |w.pcs|
    && (forall j :: 0 <= j < |w.trucks| ==> Advances(w.trucks[j], x.trucks[j]))
    && x.station.capacity == w.station.capacity
  }

  /** A run keeps the trucks and the number of stations, and moves no truck's counter backwards. */
  lemma RunAdvances(w: World, t: real, rng: nat -> real, fuel: nat)
    requires Inv(w) && w.now <= t && SamplesInRange(rng)
    ensures AdvancedFrom(w, Run(w, t, rng, fuel))
  {
    forall x: World, u: real | Inv(x) && DueBefore(x, t) && 0.0 <= u < 1.0 && AdvancedFrom(w, x)
      ensures AdvancedFrom(w, Step(x, u))
    {
      StepKeepsInv(x, u);
      StepAdvances(x, u);
    }
    RunKeeps(w, t, rng, fuel, x => AdvancedFrom(w, x));
  }

  /** Once the clock has reached the horizon, running further changes nothing. */
  lemma NothingAfterHorizon(w: World, t: real, rng: nat -> real, fuel: nat)
    requires Inv(w) && w.now <= t && SamplesInRange(rng)
    requires Halted(w, t)
    ensures Run(w, t, rng, fuel) == w
  {
  }

  /** In a consistent world every truck's counters are in cycle order and fit within the elapsed time. */
  lemma ConsistentTrucks(w: World)
    requires Inv(w)
    ensures forall i :: 0 <= i < |w.trucks| ==>
              && w.trucks[i].id == i
              && CounterOrder(w.trucks[i]) && TravelInLegs(w.trucks[i]) && MiningTotalInRange(w.trucks[i])
              && w.trucks[i].timeInQueue >= 0.0
              && Accounted(w.trucks[i]) <= w.now
  {
    forall i | 0 <= i < |w.trucks|
      ensures CounterOrder(w.trucks[i]) && TravelInLegs(w.trucks[i])
      ensures w.trucks[i].id == i && TruckInv(w.trucks[i], w.pcs[i]) && Accounted(w.trucks[i]) <= w.now
    {
      assert TruckOk(w, i);
      TruckInvOrdersCounters(w.trucks[i], w.pcs[i]);
    }
  }

  /** With enough unload stations a run stays free of contention, however far it goes. */
  lemma RunKeepsCalm(w: World, t: real, rng: nat -> real, fuel: nat)
    requires Inv(w) && w.now <= t && SamplesInRange(rng)
    requires NoContention(w)
    ensures NoContention(Run(w, t, rng, fuel))
  {
    forall x: World, u: real | Inv(x) && DueBefore(x, t) && 0.0 <= u < 1.0 && NoContention(x)
      ensures NoContention(Step(x, u))
    {
      StepKeepsCalm(x, u);
    }
    RunKeeps(w, t, rng, fuel, NoContention);
  }

  /**
    A run from time zero with at least as many unload stations as trucks
    records no queue time for any truck.
   */
  lemma RoomyRunNeverQueues(n: nat, station: Resource, t: real, rng: nat -> real, fuel: nat)
    requires station.capacity.Bounded? && Valid(station)
    requires station.inUse == 0 && station.waiting == []
    requires 0.0 <= t && SamplesInRange(rng)
    ensures var r := Run(Init(n, station), t, rng, fuel);
            n <= station.capacity.limit ==> forall i :: 0 <= i < |r.trucks| ==> r.trucks[i].timeInQueue == 0.0
  {
    hide Run, Step;
    var w := Init(n, station);
    InitIsCalm(n, station);
    RunKeepsCalm(w, t, rng, fuel);
    RunAdvances(w, t, rng, fuel);
    var r := Run(w, t, rng, fuel);
    assert n <= station.capacity.limit ==> Roomy(r);
  }

  /**
    However far a run from time zero goes, no more trucks hold an unload slot
    than there are stations, and nobody waits for a mining site.
   */
  lemma RunNeverOverbooks(n: nat, station: Resource, t: real, rng: nat -> real, fuel: nat)
    requires station.capacity.Bounded? && Valid(station)
    requires station.inUse == 0 && station.waiting == []
    requires 0.0 <= t && SamplesInRange(rng)
    ensures var r := Run(Init(n, station), t, rng, fuel);
            && SlotsHeld(r) <= station.capacity.limit
            && r.station.inUse == SlotsHeld(r)
            && r.site.waiting == []
  {
    hide Run, Step, Init;
    RunKeepsInv(Init(n, station), t, rng, fuel);
    RunAdvances(Init(n, station), t, rng, fuel);
  }

  /**
    Truck number `i` as a run up to time `t` can leave it: counters in cycle
    order, whole travel legs, mining sessions within the sampling range, and
    no more time accounted for than has elapsed.
   */
  predicate Plausible(tr: MiningTruck, i: nat, t: real) {
    && tr.id == i
    && CounterOrder(tr) && TravelInLegs(tr) && MiningTotalInRange(tr)
    && tr.timeInQueue >= 0.0
    && Accounted(tr) <= t
  }

  /** Every truck of a run from time zero is plausible, and queue-free when there are enough stations. */
  lemma RunFromStart(n: nat, station: Resource, t: real, rng: nat -> real, fuel: nat)
    requires station.capacity.Bounded? && Valid(station)
    requires station.inUse == 0 && station.waiting == []
    requires 0.0 <= t && SamplesInRange(rng)
    ensures var r := Run(Init(n, station), t, rng, fuel);
            && |r.trucks| == n
            && (forall i :: 0 <= i < n ==> Plausible(r.trucks[i], i, t))
            && (n <= station.capacity.limit ==> forall i :: 0 <= i < n ==> r.trucks[i].timeInQueue == 0.0)
  {
    hide Run, Step, Init;
    var r := Run(Init(n, station), t, rng, fuel);
    RunKeepsInv(Init(n, station), t, rng, fuel);
    RunAdvances(Init(n, station), t, rng, fuel);
    ConsistentTrucks(r);
    RoomyRunNeverQueues(n, station, t, rng, fuel);
  }

  /** `budget` wake-ups cover what `n` trucks can have been served by time `t`. */
  ghost predicate Affordable(n: nat, t: real, budget: nat) {
    (n as real) * ServedCap(t) <= budget as real
  }

  /**
    With fuel for every wake-up that can still fall before the horizon, the
    run stops at the horizon rather than for want of fuel.
   */
  lemma {:induction false} RunReachesHorizon(w: World, t: real, rng: nat -> real, fuel: nat, budget: nat)
    requires Inv(w) && w.now <= t && SamplesInRange(rng)
    requires Affordable(|w.pcs|, t, budget) && fuel + EventsServed(w) >= budget
    ensures Halted(Run(w, t, rng, fuel), t)
    decreases fuel
  {
    hide Step;
    if !DueBefore(w, t) {
      assert Run(w, t, rng, fuel) == w.(now := t);
    } else {
      var u := rng(w.drawn);
      StepUsesFuel(w, u, t, budget);
      StepKeepsInv(w, u);
      RunReachesHorizon(Step(w, u), t, rng, fuel - 1, budget);
      assert Run(w, t, rng, fuel) == Run(Step(w, u), t, rng, fuel - 1);
    }
  }

  /** A step before the horizon serves one more wake-up, still within the budget. */
  lemma StepUsesFuel(w: World, u: real, t: real, budget: nat)
    requires Inv(w) && DueBefore(w, t)
    requires 0.0 <= u < 1.0
    requires Affordable(|w.pcs|, t, budget)
    ensures |Step(w, u).trucks| == |Step(w, u).pcs| == |w.pcs|
    ensures EventsServed(Step(w, u)) == EventsServed(w) + 1 <= budget
  {
    hide Step;
    StepKeepsInv(w, u);
    StepServesOne(w, u);
    ServedWithinBudget(Step(w, u), t, budget);
  }

  /** Up to the horizon, a consistent world has served no more wake-ups than an affordable budget. */
  lemma ServedWithinBudget(w: World, t: real, budget: nat)
    requires Safe(w) && w.now <= t
    requires Affordable(|w.pcs|, t, budget)
    ensures EventsServed(w) <= budget
  {
    ServedWithinHorizon(w);
    hide ServedCap, Affordable, Safe;
    BudgetCovers(|w.pcs|, w.now, t, budget, EventsServed(w));
  }

  /** What `n` trucks can have been served by a time before `t` fits an affordable budget. */
  lemma BudgetCovers(n: nat, now: real, t: real, budget: nat, served: nat)
    requires (served as real) <= (n as real) * ServedCap(now)
    requires now <= t && Affordable(n, t, budget)
    ensures served <= budget
  {
    CapGrows(n, now, t);
  }

  /** Fuel enough for `n` trucks to reach horizon `t` from time zero. */
  function HorizonFuel(n: nat, t: nat): (f: nat)
    ensures (f as real) >= (n as real) * ServedCap(t as real)
  {
    var q := (6 * (t + 30)) / 125;
    assert ServedCap(t as real) <= (q + 6) as real;
    ScaleLe(n, ServedCap(t as real), (q + 6) as real);
    n * (q + 6)
  }

  /** Scaling by a count keeps order. */
  lemma ScaleLe(n: nat, a: real, b: real)
    requires a <= b
    ensures (n as real) * a <= (n as real) * b
  {
  }

  /**
    Runs `n` fresh trucks, with `station` as the unload pool, from time zero
    until the clock stops at horizon `t`.
   */
  function RunToHorizon(n: nat, station: Resource, t: nat, rng: nat -> real): (r: World)
    requires station.capacity.Bounded? && Valid(station)
    requires station.inUse == 0 && station.waiting == []
    requires SamplesInRange(rng)
    ensures StoppedAt(r.trucks, t as real)
    ensures |r.trucks| == n
    ensures forall i :: 0 <= i < n ==> Plausible(r.trucks[i], i, t as real)
    ensures n <= station.capacity.limit ==> forall i :: 0 <= i < n ==> r.trucks[i].timeInQueue == 0.0
  {
    hide Run, Step, Init;
    var fuel := HorizonFuel(n, t);
    RunKeepsInv(Init(n, station), t as real, rng, fuel);
    RunReachesHorizon(Init(n, station), t as real, rng, fuel, fuel);
    RunFromStart(n, station, t as real, rng, fuel);
    HaltedWorldStopped(Run(Init(n, station), t as real, rng, fuel), t as real);
    Run(Init(n, station), t as real, rng, fuel)
  }

  /** `trucks` are the trucks of a consistent world whose clock has stopped at horizon `t`. */
  ghost predicate StoppedAt(trucks: seq<MiningTruck>, t: real) {
    exists w :: Inv(w) && Halted(w, t) && w.trucks == trucks
  }

  /** The trucks of a consistent world halted at `t` have stopped there. */
  lemma HaltedWorldStopped(w: World, t: real)
    requires Inv(w) && Halted(w, t)
    ensures StoppedAt(w.trucks, t)
  {
  }

  datatype SimError = InvalidCapacity | InvalidHorizon

  /** The trucks after the run, with the numbers of trucks and stations asked for. */
  datatype Report = Report(trucks: seq<MiningTruck>, n: int, m: int)

  /**
    Runs `n` trucks sharing `m` unload stations for `t` minutes. The station
    pool refuses a non-positive capacity, and the clock refuses a horizon that
    is not in its future; a negative `n` starts no trucks.
   */
  function SimulateOperation(n: int, m: int, t: int, rng: nat -> real): (r: Result<Report, SimError>)
    requires SamplesInRange(rng)
    ensures r.Failure? <==> m <= 0 || t <= 0
    ensures r.Failure? ==> r.error == (if m <= 0 then InvalidCapacity else InvalidHorizon)
    ensures r.Success? ==>
              && r.value.n == n && r.value.m == m
              && |r.value.trucks| == (if n < 0 then 0 else n)
    ensures r.Success? ==> StoppedAt(r.value.trucks, t as real)
    ensures r.Success? ==> forall i :: 0 <= i < |r.value.trucks| ==> Plausible(r.value.trucks[i], i, t as real)
    ensures r.Success? && n <= m ==> forall i :: 0 <= i < |r.value.trucks| ==> r.value.trucks[i].timeInQueue == 0.0
  {
    match NewBounded(m)
    case Failure(_) => Failure(InvalidCapacity)
    case Success(station) =>
      if t <= 0 then Failure(InvalidHorizon)
      else
        var count := if n < 0 then 0 else n;
        hide RunToHorizon;
        var w := RunToHorizon(count, station, t, rng);
        Success(Report(w.trucks, n, m))
  }

  /** In a consistent world halted at a positive horizon, every truck has left its unknown starting location. */
  lemma HaltedTrucksStarted(w: World, t: real)
    requires Inv(w) && Halted(w, t) && t > 0.0
    ensures forall i :: 0 <= i < |w.trucks| ==> w.trucks[i].currStep != Unknown
  {
    forall i | 0 <= i < |w.trucks|
      ensures w.trucks[i].currStep != Unknown
    {
      UnstartedIsDue(w, i, t);
    }
  }

  /** Every truck a successful operation returns has started its cycle: none is left as it was created. */
  lemma OperationStartsEveryTruck(n: int, m: int, t: int, rng: nat -> real)
    requires SamplesInRange(rng)
    ensures var r := SimulateOperation(n, m, t, rng);
            r.Success? ==> forall i :: 0 <= i < |r.value.trucks| ==>
              r.value.trucks[i].currStep != Unknown && r.value.trucks[i] != NewTruck(i)
  {
    var r := SimulateOperation(n, m, t, rng);
    if r.Success? {
      var w :| Inv(w) && Halted(w, t as real) && w.trucks == r.value.trucks;
      HaltedTrucksStarted(w, t as real);
    }
  }
}
