/**
  One mining truck: its phase, its cumulative counters, and the step of its
  never-ending cycle (mine, travel to the unload stations, queue, unload,
  travel back). All times are in minutes of virtual time.
 */
module Trucks {

  /** The phase the truck reports; `Unknown` only before its process first runs. */
  datatype Location = Unknown | MiningSite | Traveling | UnloadQueue | UnloadStation

  const TravelMinutes: real := 30.0
  const UnloadMinutes: real := 5.0
  const MinMiningMinutes: real := 60.0
  const MaxMiningMinutes: real := 300.0

  /**
    A mining duration from a uniform sample `u` in [0, 1): between one and
    five hours, the upper end excluded.
   */
  function RandomMiningMinutes(u: real): (r: real)
    requires 0.0 <= u < 1.0
    ensures MinMiningMinutes <= r < MaxMiningMinutes
  {
    ((u * 4.0) + 1.0) * 60.0
  }

  /** Every duration in [60, 300) is reached by exactly one sample. */
  lemma MiningMinutesCoverRange(d: real, u: real)
    requires MinMiningMinutes <= d < MaxMiningMinutes
    requires 0.0 <= u < 1.0
    ensures 0.0 <= (d - 60.0) / 240.0 < 1.0
    ensures RandomMiningMinutes((d - 60.0) / 240.0) == d
    ensures RandomMiningMinutes(u) == d <==> u == (d - 60.0) / 240.0
  {
  }

  /** The statistics a truck keeps about itself; `id` is the number in its name "Mining Truck <id>". */
  datatype MiningTruck = MiningTruck(
    id: nat,
    timeSpentMining: real,
    timesMined: nat,
    timeSpentTraveling: real,
    timesUnloaded: nat,
    timeInQueue: real,
    timesQueued: nat,
    currStep: Location)

  /** A truck before its process runs: every counter zero, location unknown. */
  function NewTruck(id: nat): (t: MiningTruck)
    ensures t.id == id && t.currStep == Unknown
    ensures t.timeSpentMining == 0.0 && t.timesMined == 0
    ensures t.timeSpentTraveling == 0.0 && t.timesUnloaded == 0
    ensures t.timeInQueue == 0.0 && t.timesQueued == 0
    ensures Accounted(t) == 0.0
  {
    MiningTruck(id, 0.0, 0, 0.0, 0, 0.0, 0, Unknown)
  }

  /** Minutes of the truck's history its counters account for. */
  function Accounted(t: MiningTruck): real {
    t.timeSpentMining + t.timeSpentTraveling + UnloadMinutes * (t.timesUnloaded as real) + t.timeInQueue
  }

  /** The mining total is the sum of `timesMined` durations each in [60, 300). */
  predicate MiningTotalInRange(t: MiningTruck) {
    && MinMiningMinutes * (t.timesMined as real) <= t.timeSpentMining
    && (t.timesMined == 0 ==> t.timeSpentMining == 0.0)
    && (t.timesMined > 0 ==> t.timeSpentMining < MaxMiningMinutes * (t.timesMined as real))
  }

  /** The counters are ordered as the cycle increments them: queue, unload and mine counts differ by at most one. */
  predicate CounterOrder(t: MiningTruck) {
    t.timesUnloaded <= t.timesQueued <= t.timesMined <= t.timesUnloaded + 1
  }

  /** Travel time is a whole number of 30-minute legs: one per queue entry and one per finished return. */
  predicate TravelInLegs(t: MiningTruck) {
    || t.timeSpentTraveling == TravelMinutes * ((t.timesQueued + t.timesUnloaded) as real)
    || t.timeSpentTraveling == TravelMinutes * ((t.timesQueued + t.timesUnloaded) as real) - TravelMinutes
  }

  /** Mean length of a mining session; `MiningTruck.avgTimeMining` divides by `timesMined` unguarded. */
  function AvgTimeMining(t: MiningTruck): (r: real)
    requires t.timesMined > 0
    ensures r * (t.timesMined as real) == t.timeSpentMining
    ensures MiningTotalInRange(t) ==> MinMiningMinutes <= r < MaxMiningMinutes
  {
    var n := t.timesMined as real;
    var r := t.timeSpentMining / n;
    assert r * n == t.timeSpentMining;
    assert MiningTotalInRange(t) ==> MinMiningMinutes * n <= r * n < MaxMiningMinutes * n;
    r
  }

  /** Mean wait in the unload line; `MiningTruck.avgTimeQueued` divides by `timesQueued` unguarded. */
  function AvgTimeQueued(t: MiningTruck): (r: real)
    requires t.timesQueued > 0
    ensures r * (t.timesQueued as real) == t.timeInQueue
    ensures t.timeInQueue >= 0.0 ==> r >= 0.0
  {
    t.timeInQueue / (t.timesQueued as real)
  }

  /**
    Where the truck's process is suspended. `Granted(since)` is a request for
    an unload slot that has been granted but whose wake-up is still pending;
    `since` is when the truck joined the line.
   */
  datatype Pc =
    | Start
    | SiteRequested
    | Mining(minutes: real)
    | ToStation
    | Waiting(since: real)
    | Granted(since: real)
    | Unloading
    | ToSite

  /** The location the truck reports while suspended at `pc`. */
  function LocationOf(pc: Pc): Location {
    match pc
    case Start => Unknown
    case SiteRequested => MiningSite
    case Mining(_) => MiningSite
    case ToStation => Traveling
    case Waiting(_) => UnloadQueue
    case Granted(_) => UnloadQueue
    case Unloading => UnloadStation
    case ToSite => Traveling
  }

  /** Length of the delay the process waits out at `pc` (none for a pending grant). */
  function PhaseMinutes(pc: Pc): real {
    match pc
    case Mining(d) => d
    case ToStation => TravelMinutes
    case Unloading => UnloadMinutes
    case ToSite => TravelMinutes
    case _ => 0.0
  }

  /** The truck holds a mining-site slot: from its request until it has driven off. */
  predicate AtSite(pc: Pc) {
    pc.SiteRequested? || pc.Mining? || pc.ToStation?
  }

  /** The truck holds an unload slot: from its grant through unloading and the return leg. */
  predicate HoldsSlot(pc: Pc) {
    pc.Granted? || pc.Unloading? || pc.ToSite?
  }

  /** The counts each point of the cycle has reached. */
  predicate CountersMatch(t: MiningTruck, pc: Pc) {
    match pc
    case Start => t.timesMined == 0 && t.timesQueued == 0 && t.timesUnloaded == 0
    case SiteRequested => t.timesMined == t.timesQueued == t.timesUnloaded
    case Mining(_) => t.timesMined == t.timesQueued == t.timesUnloaded
    case ToStation => t.timesMined == t.timesQueued + 1 && t.timesQueued == t.timesUnloaded
    case Waiting(_) => t.timesMined == t.timesQueued == t.timesUnloaded + 1
    case Granted(_) => t.timesMined == t.timesQueued == t.timesUnloaded + 1
    case Unloading => t.timesMined == t.timesQueued == t.timesUnloaded + 1
    case ToSite => t.timesMined == t.timesQueued == t.timesUnloaded && t.timesUnloaded >= 1
  }

  /** What holds of a truck's counters whenever its process is suspended at `pc`. */
  ghost predicate TruckInv(t: MiningTruck, pc: Pc) {
    && t.currStep == LocationOf(pc)
    && MiningTotalInRange(t)
    && t.timeInQueue >= 0.0
    && CountersMatch(t, pc)
    && t.timeSpentTraveling
       == TravelMinutes * ((t.timesQueued + t.timesUnloaded) as real) - (if pc.ToSite? then TravelMinutes else 0.0)
    && (pc.Mining? ==> MinMiningMinutes <= pc.minutes < MaxMiningMinutes)
    && (pc.Waiting? || pc.Granted? ==> pc.since == Accounted(t))
    && (pc.Start? ==> t == NewTruck(t.id))
  }

  /** The invariant gives the counter order and whole travel legs. */
  lemma TruckInvOrdersCounters(t: MiningTruck, pc: Pc)
    requires TruckInv(t, pc)
    ensures CounterOrder(t) && TravelInLegs(t)
    ensures t.timeSpentTraveling >= 0.0 && t.timeSpentMining >= 0.0
    ensures Accounted(t) >= 0.0
  {
  }

  /** A wake-up of a truck suspended at `pc` is due at `due`, as its counters demand. */
  ghost predicate Fits(t: MiningTruck, pc: Pc, due: real) {
    match pc
    case Waiting(_) => false
    case Granted(since) => since <= due
    case _ => due == Accounted(t) + PhaseMinutes(pc)
  }

  /** The reported location moves only along the cycle's edges. */
  predicate CycleEdge(a: Location, b: Location) {
    match a
    case Unknown => b == MiningSite
    case MiningSite => b == Traveling
    case Traveling => b == UnloadQueue || b == MiningSite
    case UnloadQueue => b == UnloadStation
    case UnloadStation => b == Traveling
  }

  /** No counter of `t'` is behind `t`'s. */
  predicate Advances(t: MiningTruck, t': MiningTruck) {
    && t'.id == t.id
    && t.timeSpentMining <= t'.timeSpentMining && t.timesMined <= t'.timesMined
    && t.timeSpentTraveling <= t'.timeSpentTraveling && t.timesUnloaded <= t'.timesUnloaded
    && t.timeInQueue <= t'.timeInQueue && t.timesQueued <= t'.timesQueued
  }

  datatype Progress = Progress(truck: MiningTruck, pc: Pc)

  /**
    Runs the truck's cycle from suspension point `pc`, woken at virtual time
    `now`, up to its next suspension. `minutes` is the sampled mining duration,
    used when this run starts a mining session; `room` says whether the unload
    request made on arrival at the stations is granted at once.
   */
  function Resume(t: MiningTruck, pc: Pc, now: real, minutes: real, room: bool): (p: Progress)
    requires TruckInv(t, pc) && Fits(t, pc, now)
    requires pc.SiteRequested? ==> MinMiningMinutes <= minutes < MaxMiningMinutes
    ensures TruckInv(p.truck, p.pc)
    ensures Accounted(p.truck) == now
    ensures !p.pc.Waiting? ==> Fits(p.truck, p.pc, now + PhaseMinutes(p.pc))
    ensures Advances(t, p.truck)
    ensures p.truck.currStep != Unknown
    ensures p.truck.currStep == t.currStep || CycleEdge(t.currStep, p.truck.currStep)
    // a finished mining session adds exactly its duration and one to the count
    ensures p.truck.timeSpentMining == t.timeSpentMining + (if pc.Mining? then pc.minutes else 0.0)
    ensures p.truck.timesMined == t.timesMined + (if pc.Mining? then 1 else 0)
    // each finished leg adds exactly thirty minutes of travel
    ensures p.truck.timeSpentTraveling
            == t.timeSpentTraveling + (if pc.ToStation? || pc.ToSite? then TravelMinutes else 0.0)
    // a granted request adds the time since joining the line
    ensures p.truck.timeInQueue == t.timeInQueue + (if pc.Granted? then now - pc.since else 0.0)
  {
    match pc
    case Start =>
      Progress(t.(currStep := MiningSite), SiteRequested)
    case SiteRequested =>
      Progress(t, Mining(minutes))
    case Mining(d) =>
      Progress(t.(timeSpentMining := t.timeSpentMining + d, timesMined := t.timesMined + 1,
                  currStep := Traveling), ToStation)
    case ToStation =>
      Progress(t.(timeSpentTraveling := t.timeSpentTraveling + TravelMinutes,
                  timesQueued := t.timesQueued + 1, currStep := UnloadQueue),
               if room then Granted(now) else Waiting(now))
    case Granted(since) =>
      Progress(t.(timeInQueue := t.timeInQueue + (now - since), currStep := UnloadStation), Unloading)
    case Unloading =>
      Progress(t.(timesUnloaded := t.timesUnloaded + 1, currStep := Traveling), ToSite)
    case ToSite =>
      Progress(t.(timeSpentTraveling := t.timeSpentTraveling + TravelMinutes, currStep := MiningSite),
               SiteRequested)
  }
}
