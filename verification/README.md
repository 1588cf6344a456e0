# Mining-truck operation, modelled in Dafny

This project models the simulation of a lunar mining operation:
`n` trucks run a fixed cycle and share `m` unload stations:

1. mine for a random duration of one to five hours;
2. drive 30 minutes to the stations;
3. queue for a free station if all are busy;
4. unload for 5 minutes;
5. drive 30 minutes back.

A truck keeps its unload station until it has driven the 30 minutes back to
the mining site, not just while it unloads. A station is therefore busy for
35 minutes per visit, and this decides every queue time.

A discrete-event clock drives the simulation until a horizon of `t` minutes.
The model covers four parts.

- The truck's cycle (`Trucks`). Its location enum, its statistics counters, and the generator that drives them. The generator is modelled as a resumable state machine: `Pc` records where the generator is suspended, and `Resume` runs it from one suspension to the next.
- The shared resources (`Resources`):
  - the bounded unload-station pool, whose first-come, first-served line holds the waiting trucks;
  - the unbounded mining-site pool.
- The event-driven clock (`Agenda`, `Engine`). Pending wake-ups are kept in serving order: earliest due time first, and events due at the same instant in the order they were scheduled. A step serves the earliest event: it moves the clock there and runs the woken truck up to its next suspension.
- The driver (`Simulation`):
  - it builds the pools and the trucks;
  - it runs the clock until the horizon;
  - it returns the trucks.

Proofs of consistency:

- `Engine.Inv` states what holds between events.
  - Every truck's counters match its point in the cycle and account for no more than the elapsed time.
  - The pools count exactly the trucks holding their slots.
  - The unload line lists exactly the waiting trucks, in the order they joined.
  - The pending events are in serving order.
  - Every truck not waiting in the unload line has exactly one pending wake-up, due when its current phase ends; a waiting truck has none.
  - A truck granted an unload slot, on arrival or by a hand-over, has its wake-up due at the current instant, so a freed slot never sits idle.
- `StepProofs` and `Wakeups` prove that every step keeps this invariant.
- `Horizon` bounds how many wake-ups the trucks can have been served by a given time. This bound gives the run enough fuel to reach the horizon.
- `Contention` proves that with at least as many stations as trucks, nobody ever queues.

Random mining durations come from an oracle `rng: nat -> real` whose samples lie in [0, 1). A step consumes the next sample exactly when the truck it wakes starts a mining session, and that session lasts the duration drawn from the sample (`Wakeups.StepDrawsOnlyToMine`). So the `k`-th sample sets the `k`-th mining session started across the run.

Two choices follow the library the source runs on rather than a plain reading of the driver.

- **A horizon that is not in the future is refused.** The clock library refuses a stop time that is not after the current time. `SimulateOperation` therefore fails with `InvalidHorizon` for `t <= 0`. It does not return untouched trucks for `t = 0`.
- **Events due exactly at the horizon are not served.** The library's stop event outranks them, so the run stops at `t` first.

## Model

| member | source | states |
|---|---|---|
| Agenda.Insert | FranzenVastAssignment.py:126 | Scheduling a wake-up keeps the list in serving order, adds exactly the new event and loses none (same multiset plus one). |
| Agenda.HeadIsEarliest | FranzenVastAssignment.py:200 | The first pending event is due no later than any other, and appears only once. |
| Agenda.InsertAfterSameInstant | FranzenVastAssignment.py:126 | A new wake-up lands after every pending event due no later than it and before every event due strictly later. So of two events due at the same instant, the one scheduled first is served first. |
| Resources.NewBounded | FranzenVastAssignment.py:188 | Creating the station pool fails exactly when the capacity is below one; otherwise the pool has that capacity, no holders and an empty line. |
| Resources.NewUnbounded | FranzenVastAssignment.py:190 | The mining-site pool starts unbounded, empty and consistent. |
| Resources.Request | FranzenVastAssignment.py:146-155 | A request is granted at once exactly when a slot is free. If not, the requester joins the end of the line and no slot changes hands. The pool never exceeds its capacity. |
| Resources.Release | FranzenVastAssignment.py:146-176 | Giving a slot back hands it to the head of the line when someone waits, with the same number of held slots. Otherwise it frees the slot. |
| Resources.ReleaseUndoesGrant | FranzenVastAssignment.py:146-176 | Granting a free slot and releasing it again restores the pool exactly. |
| Resources.UnboundedNeverWaits | FranzenVastAssignment.py:114-117 | A mining-site request is always granted at once and nobody ever waits for one. |
| Trucks.RandomMiningMinutes | FranzenVastAssignment.py:57-58 | A sampled mining duration lies in [60, 300) minutes. |
| Trucks.MiningMinutesCoverRange | FranzenVastAssignment.py:57-58 | The sample-to-duration map is a bijection from [0, 1) onto [60, 300), with inverse `(d - 60) / 240`. |
| Trucks.NewTruck | FranzenVastAssignment.py:69-78 | A new truck carries its number and an unknown location. Every count and every time total is zero, so it accounts for no time at all. |
| Trucks.AvgTimeMining | FranzenVastAssignment.py:79-80 | The mean times the count gives back the mining total. For a total made of sessions in [60, 300), the mean also lies in [60, 300). |
| Trucks.AvgTimeQueued | FranzenVastAssignment.py:81-82 | The mean times the count gives back the queue total, and it is non-negative. |
| Trucks.Resume | FranzenVastAssignment.py:108-176 | One resumption of the truck's generator: (1) keeps the truck invariant; (2) leaves the truck's accounted time equal to the current time; (3) never decreases a counter; (4) moves the location along a cycle edge and never back to unknown. A mining phase adds exactly its duration and one count. A travel leg adds exactly 30 minutes. A grant adds exactly the time since joining the line. |
| Trucks.TruckInvOrdersCounters | FranzenVastAssignment.py:126-176 | Queue, unload and mine counts differ by at most one, in cycle order. Travel time is a whole number of 30-minute legs. No total is negative. |
| Engine.Init | FranzenVastAssignment.py:185-197 | The world at time zero is consistent. It holds `n` fresh trucks, numbered in creation order, each about to start its process. There is exactly one wake-up per truck, due at time zero and registered in creation order. No sample has been drawn, and the station pool is the one given. |
| Engine.Schedule | FranzenVastAssignment.py:126-176 | A timeout adds exactly one wake-up at `now + delay` and keeps the list in serving order. Nothing else changes. |
| Engine.Continue | FranzenVastAssignment.py:114-176 | Running a truck to its next suspension takes no virtual time and leaves both pools as they were. |
| Wakeups.ContinueTouchesOnly | FranzenVastAssignment.py:114-176 | Running truck `i` changes only truck `i`, by exactly one resumption of its generator. The only event it can add is `i`'s next wake-up, due once the phase it entered has elapsed. |
| Wakeups.ContinueSchedulesNext | FranzenVastAssignment.py:126-176 | Running truck `i` keeps every pending event and the serving order. Unless the truck joined the unload line, it leaves a wake-up for `i` pending. |
| Engine.Serve | FranzenVastAssignment.py:114-176 | Serving the woken truck takes no virtual time. |
| Wakeups.ServeStartsMining | FranzenVastAssignment.py:119-125 | A truck that has been granted a mining site consumes exactly one sample, and its suspension point becomes mining for the duration drawn from it, which lies in [60, 300). Its only new event is its own wake-up when that session ends. The clock, both pools and every truck's counters are unchanged. |
| Engine.Step | FranzenVastAssignment.py:200 | Serving the earliest event moves the clock to that event's due time, never back. |
| Horizon.StepServesOne | FranzenVastAssignment.py:114-176 | Every step serves exactly one wake-up: the count of wake-ups served, read off the trucks' counters and suspension points, grows by exactly one. |
| Horizon.ServedWithinClock | FranzenVastAssignment.py:114-176 | A full cycle takes at least 125 minutes (60 mining, 30 out, 5 unloading, 30 back). So a truck whose counters account for no more than `now` minutes has been woken at most `6 (now + 30) / 125 + 5` times. |
| Wakeups.StepKeepsLive | FranzenVastAssignment.py:126-176 | After every step, each truck not waiting in the unload line has a wake-up pending. |
| Wakeups.StepGrantsNow | FranzenVastAssignment.py:146-155 | After every step, a truck that holds a granted unload request has its wake-up due at the current instant. This holds both for a truck that found a free station and for the head waiter handed a released slot, so no freed slot sits idle. |
| Wakeups.StepDrawsOnlyToMine | FranzenVastAssignment.py:113-125 | A step consumes one sample of the random source exactly when the woken truck has been granted its mining site. The truck then mines for the duration drawn from that sample. |
| Wakeups.OneWakeUpEach | FranzenVastAssignment.py:108-176 | In a consistent world, a truck not waiting in the unload line has exactly one pending wake-up, and a waiting truck has none. |
| Engine.PopMakesReady | FranzenVastAssignment.py:200 | Taking the earliest event moves the clock forward, never back, and leaves its truck due now with no other pending event. |
| StepProofs.StepKeepsInv | FranzenVastAssignment.py:92-176 | Serving the earliest event keeps the whole world consistent, in particular: (1) the unload stations never hold more trucks than there are stations; (2) nobody waits for a mining site; (3) the line holds exactly the waiting trucks, in joining order; (4) every truck's counters account for no more than the elapsed time; (5) every truck not waiting in the line has exactly one pending wake-up, due when its current phase ends; (6) a truck granted a slot is woken at that same instant. The clock moves to the event's due time. |
| StepProofs.StepAdvances | FranzenVastAssignment.py:146-160 | A step never moves a counter backwards and keeps the number of stations. The line changes only first come, first served: the woken truck joins its end, or its head is granted the slot. |
| StepProofs.FreedSlotGoesToEarliest | FranzenVastAssignment.py:146-155 | A freed slot goes to a waiting truck that joined the line no later than any other waiting truck. |
| Contention.StepKeepsCalm | FranzenVastAssignment.py:146-160 | With at least as many stations as trucks, a step keeps the unload line empty and every truck's queue time at zero. |
| Contention.ArrivalIsGranted | FranzenVastAssignment.py:146-155 | With at least as many stations as trucks, a truck arriving at the stations always finds a free one. |
| Simulation.Run | FranzenVastAssignment.py:200 | Running the clock towards the horizon never moves it back or past the horizon. |
| Simulation.RunKeepsInv | FranzenVastAssignment.py:200 | A run of any length keeps the world consistent. |
| Simulation.RunAdvances | FranzenVastAssignment.py:200 | A run keeps the trucks and the number of stations, and moves no truck's counter backwards. |
| Simulation.RunEnds | FranzenVastAssignment.py:200 | A run ends in one of two ways. Either the clock stands at the horizon with nothing pending before it, or the clock is short of the horizon with an event still due before it. In the second case the run has served exactly `fuel` wake-ups. Either way the run keeps the number of trucks. |
| Simulation.RunReachesHorizon | FranzenVastAssignment.py:200 | With fuel for every wake-up that the trucks can be served by the horizon, the run halts at the horizon with nothing pending before it. |
| Simulation.HorizonFuel | FranzenVastAssignment.py:200 | The fuel given to a run covers `n` times the per-truck bound on wake-ups by the horizon. |
| Simulation.NothingAfterHorizon | FranzenVastAssignment.py:200 | Once the clock has reached the horizon, running again changes nothing. |
| Simulation.ConsistentTrucks | FranzenVastAssignment.py:86-87 | In a consistent world every truck's mining, travel, unload and queue time together is at most the current time. Its counters are in cycle order. |
| Simulation.RunKeepsCalm | FranzenVastAssignment.py:146-160 | With enough stations, a run of any length never lets a truck queue. |
| Simulation.RoomyRunNeverQueues | FranzenVastAssignment.py:188 | A run from time zero with at least as many stations as trucks records zero queue time for every truck. |
| Simulation.RunNeverOverbooks | FranzenVastAssignment.py:188-190 | However far a run goes, the trucks holding an unload slot never outnumber the stations, and nobody waits for a mining site. |
| Simulation.RunFromStart | FranzenVastAssignment.py:192-200 | After a run from time zero there is one truck per creation index, each plausible for the horizon. None has queue time if stations are plentiful. |
| Simulation.RunToHorizon | FranzenVastAssignment.py:185-200 | A run from time zero with that fuel halts at the horizon: its trucks are those of a consistent world with the clock at `t` and nothing pending before it. There is one truck per creation index, each plausible for `t`, and none has queue time when stations are plentiful. |
| Simulation.HaltedTrucksStarted | FranzenVastAssignment.py:114-116 | In a consistent world halted at a positive horizon, no truck is left at the unknown starting location. |
| Simulation.OperationStartsEveryTruck | FranzenVastAssignment.py:178-203 | No truck a successful operation returns is still as it was created: each has at least asked for a mining site. |
| Simulation.SimulateOperation | FranzenVastAssignment.py:178-203 | Refuses fewer than one station (`InvalidCapacity`) and a horizon that is not positive (`InvalidHorizon`), in that order, and in no other case. Otherwise it returns `max(n, 0)` trucks: the trucks of a consistent world whose clock stands at `t` with nothing pending before it. Each truck has: counters in cycle order, whole travel legs, mining totals in range, and total accounted time at most `t`. With `n <= m`, every truck's queue time is zero. |

## Left out

- `simTruckStats` (FranzenVastAssignment.py:205-296): printing, aggregation and charts; no simulation logic.
- `run()` (FranzenVastAssignment.py:300-322): console input parsing and re-prompting.
- `printInfo` (FranzenVastAssignment.py:83-87): printing only. Its time bound is proved as `Simulation.ConsistentTrucks` and carried into `SimulateOperation`'s result.
- Trucks.AvgTimeMining: requires `timesMined > 0`. The source divides by the count and raises `ZeroDivisionError` for a truck that never finished a mining session; that error path is not modelled.
- Trucks.AvgTimeQueued: requires `timesQueued > 0`. The source raises `ZeroDivisionError` for a truck that never joined the unload line; that error path is not modelled.
- The argument type check at FranzenVastAssignment.py:180. Dafny's types already make `n`, `m` and `t` integers.
- The truck's name string. A truck carries the number `i` from its name `Mining Truck i` as `id`.
- The pseudo-random generator. Samples come from an oracle `rng`, assumed to lie in [0, 1). No seeding or distribution is modelled.
- Floating-point arithmetic. Times are exact reals, so rounding in sums of sampled durations is not modelled.
  - In doubles, `randomMiningMinutes()` returns exactly 300.0 when `random()` gives its largest value, 1 - 2^-53, because `4 * r + 1` rounds to 5.0. The source's range is therefore [60, 300]; the model's exact reals keep [60, 300).
- Simulation.Run: takes a `fuel` bound on the number of events served, so that its recursion terminates. `RunToHorizon` and `SimulateOperation` supply `HorizonFuel`, which is proved enough to reach the horizon (`RunReachesHorizon`). With less fuel a run stops early, and `RunEnds` says so. The consistency properties hold for every fuel value.
- Resources.Release: hands the freed slot to the head of the line at once. The library completes the hand-over no later than its release event, within the same instant. Only the order of zero-delay wake-ups at that instant can differ, not which truck gets the slot. The waiter's wake-up is scheduled after the releasing truck's next one, which is the order the library serves them in.
- Exact scenario outcomes, such as how many cycles one truck completes in 1000 minutes, depend on the sampled durations and are not proved. Proved instead: an upper bound on wake-ups (`Horizon.ServedWithinClock`), and that every truck has started by any positive horizon (`Simulation.OperationStartsEveryTruck`).
- The class-level default counters of `MiningTruck` (FranzenVastAssignment.py:70-76) are modelled as per-truck fields that start at zero.
- The default arguments of `simulateOperation` (`n = 10`, `m = 2`, `t = 4320`, FranzenVastAssignment.py:178): Dafny functions have none, so callers pass all three.
