/**
  The run reaches its horizon. Every event served advances one truck's
  process by one suspension point, and a truck's counters, bounded by the
  elapsed time, bound how many suspension points it can have passed: a full
  cycle of six takes at least 125 minutes. So only finitely many events are
  due before any horizon.
 */
module Horizon {
  import opened Agenda
  import opened Resources
  import opened Trucks
  import opened Counting
  import opened Engine
  import opened Wakeups

  /** The shortest possible cycle: the shortest mining session, two legs and an unload. */
  const ShortestCycle: real := MinMiningMinutes + TravelMinutes + UnloadMinutes + TravelMinutes

  /**
    How many wake-ups of a truck's process have been served, read off its
    unload count and its suspension point: six per completed cycle.
   */
  function Served(t: MiningTruck, pc: Pc): nat {
    6 * t.timesUnloaded +
    match pc
    case Start => 0
    case SiteRequested => 1
    case Mining(_) => 2
    case ToStation => 3
    case Waiting(_) => 4
    case Granted(_) => 4
    case Unloading => 5
    case ToSite => 0
  }

  /** Each resumption passes exactly one suspension point. */
  lemma ResumeServesOne(t: MiningTruck, pc: Pc, now: real, minutes: real, room: bool)
    requires TruckInv(t, pc) && Fits(t, pc, now)
    requires pc.SiteRequested? ==> MinMiningMinutes <= minutes < MaxMiningMinutes
    ensures Served(Resume(t, pc, now, minutes, room).truck, Resume(t, pc, now, minutes, room).pc) == Served(t, pc) + 1
  {
  }

  /** Most wake-ups one truck can have been served by time `now`. */
  function ServedCap(now: real): real {
    6.0 * (now + TravelMinutes) / ShortestCycle + 5.0
  }

  /** A truck whose counters account for no more than `now` has been served at most `ServedCap(now)` wake-ups. */
  lemma ServedWithinClock(t: MiningTruck, pc: Pc, now: real)
    requires TruckInv(t, pc) && Accounted(t) <= now
    ensures (Served(t, pc) as real) <= ServedCap(now)
  {
    var c := t.timesUnloaded as real;
    assert t.timesMined >= t.timesUnloaded && t.timesQueued >= t.timesUnloaded;
    assert ShortestCycle * c - TravelMinutes <= Accounted(t);
  }

  /** Wake-ups served so far in the world. */
  function EventsServed(w: World): nat
    requires |w.trucks| == |w.pcs|
  {
    SumBy(w.trucks, w.pcs, Served)
  }

  /** In a consistent world every truck has been served at most `ServedCap(now)` wake-ups. */
  lemma EachServedWithinClock(w: World)
    requires Safe(w)
    ensures |w.trucks| == |w.pcs|
    ensures forall k :: 0 <= k < |w.trucks| ==> (Served(w.trucks[k], w.pcs[k]) as real) <= ServedCap(w.now)
  {
    hide ServedCap, Served;
    forall k | 0 <= k < |w.trucks|
      ensures (Served(w.trucks[k], w.pcs[k]) as real) <= ServedCap(w.now)
    {
      assert TruckOk(w, k);
      ServedWithinClock(w.trucks[k], w.pcs[k], w.now);
    }
  }

  /** In a consistent world at most `ServedCap(now)` wake-ups per truck have been served. */
  lemma ServedWithinHorizon(w: World)
    requires Safe(w)
    ensures (EventsServed(w) as real) <= (|w.pcs| as real) * ServedCap(w.now)
  {
    EachServedWithinClock(w);
    SumWithinCap(w, ServedCap(w.now));
  }

  /** A cap on every truck's wake-ups caps the world's total. */
  lemma SumWithinCap(w: World, cap: real)
    requires |w.trucks| == |w.pcs|
    requires forall k :: 0 <= k < |w.trucks| ==> (Served(w.trucks[k], w.pcs[k]) as real) <= cap
    ensures (EventsServed(w) as real) <= (|w.pcs| as real) * cap
  {
    hide Served;
    SumByBound(w.trucks, w.pcs, Served, cap);
  }

  /** Running truck `i` serves it exactly one wake-up and no other truck any. */
  lemma ContinueServesOne(v: World, i: nat, minutes: real, room: bool)
    requires i < |v.trucks| == |v.pcs|
    requires TruckInv(v.trucks[i], v.pcs[i]) && Fits(v.trucks[i], v.pcs[i], v.now)
    requires v.pcs[i].SiteRequested? ==> MinMiningMinutes <= minutes < MaxMiningMinutes
    requires Sorted(v.agenda) && IdsBelow(v.agenda, v.nextId)
    ensures |Continue(v, i, minutes, room).trucks| == |Continue(v, i, minutes, room).pcs| == |v.pcs|
    ensures EventsServed(Continue(v, i, minutes, room)) == EventsServed(v) + 1
  {
    var p := Resume(v.trucks[i], v.pcs[i], v.now, minutes, room);
    ContinueTouchesOnly(v, i, minutes, room);
    ResumeServesOne(v.trucks[i], v.pcs[i], v.now, minutes, room);
    SumByUpdate(v.trucks, v.pcs, i, p.truck, p.pc, Served);
  }

  /** Serving the ready truck counts one more wake-up served. */
  lemma ServeServesOne(v: World, i: nat, u: real)
    requires Ready(v, i) && StationOk(v) && SiteOk(v)
    requires 0.0 <= u < 1.0
    ensures |Serve(v, i, u).trucks| == |Serve(v, i, u).pcs| == |v.pcs|
    ensures EventsServed(Serve(v, i, u)) == EventsServed(v) + 1
  {
    match v.pcs[i]
    case Start =>
      ContinueServesOne(v.(site := Request(v.site, i).resource), i, 0.0, false);
    case SiteRequested =>
      ServeUnfoldsMining(v, i, u);
      ContinueServesOne(v.(drawn := v.drawn + 1), i, RandomMiningMinutes(u), false);
    case Mining(_) =>
      ContinueServesOne(v, i, 0.0, false);
    case Granted(_) =>
      ContinueServesOne(v, i, 0.0, false);
    case Unloading =>
      ContinueServesOne(v, i, 0.0, false);
    case ToStation =>
      CountHitsOne(v.pcs, i, AtSite);
      var req := Request(v.station, i);
      ContinueServesOne(v.(site := Release(v.site).resource, station := req.resource), i, 0.0, req.granted);
    case ToSite =>
      ReturnServesOne(v, i, u);
  }

  /** The returning truck's step, with or without a hand-over, as in `ServeServesOne`. */
  lemma ReturnServesOne(v: World, i: nat, u: real)
    requires Ready(v, i) && StationOk(v) && SiteOk(v)
    requires 0.0 <= u < 1.0
    requires v.pcs[i].ToSite?
    ensures |Serve(v, i, u).trucks| == |Serve(v, i, u).pcs| == |v.pcs|
    ensures EventsServed(Serve(v, i, u)) == EventsServed(v) + 1
  {
    CountHitsOne(v.pcs, i, HoldsSlot);
    var rel := Release(v.station);
    var v1 := v.(station := rel.resource, site := Request(v.site, i).resource);
    if |v.station.waiting| == 0 {
      ContinueServesOne(v1, i, 0.0, false);
    } else {
      var h := v.station.waiting[0];
      assert h < |v.pcs| && v.pcs[h].Waiting?;
      var v2 := v1.(pcs := v1.pcs[h := Granted(v1.pcs[h].since)]);
      GrantServesNone(v1, v2, h);
      ContinueServesOne(v2, i, 0.0, false);
      assert Serve(v, i, u) == Schedule(Continue(v2, i, 0.0, false), h, 0.0);
    }
  }

  /** Marking a waiting truck as granted serves it no wake-up: its grant is still pending. */
  lemma GrantServesNone(v: World, v': World, h: nat)
    requires |v.trucks| == |v.pcs| && h < |v.pcs| && v.pcs[h].Waiting?
    requires v'.trucks == v.trucks && v'.pcs == v.pcs[h := Granted(v.pcs[h].since)]
    ensures EventsServed(v') == EventsServed(v)
  {
    SumByUpdate(v.trucks, v.pcs, h, v.trucks[h], Granted(v.pcs[h].since), Served);
    assert v.trucks[h := v.trucks[h]] == v.trucks;
  }

  /** Every step serves exactly one wake-up. */
  lemma StepServesOne(w: World, u: real)
    requires Safe(w) && |w.agenda| > 0
    requires 0.0 <= u < 1.0
    ensures |Step(w, u).trucks| == |Step(w, u).pcs| == |w.pcs|
    ensures EventsServed(Step(w, u)) == EventsServed(w) + 1
  {
    PopMakesReady(w);
    ServeServesOne(w.(now := w.agenda[0].due, agenda := w.agenda[1..]), w.agenda[0].pid, u);
  }

  /** The cap grows with the clock, for any number of trucks. */
  lemma CapGrows(n: nat, a: real, b: real)
    requires a <= b
    ensures (n as real) * ServedCap(a) <= (n as real) * ServedCap(b)
  {
    assert ServedCap(a) <= ServedCap(b);
  }
}
