/**
  The discrete-event engine the truck processes run on: a virtual clock, the
  pending-event list, the unbounded mining-site pool and the bounded
  unload-station pool. A step serves the earliest pending event: it moves the
  clock to the event's due time and runs the woken truck up to its next
  suspension, acquiring and releasing slots on the way.
 */
module Engine {
  import opened Wrappers
  import opened Agenda
  import opened Resources
  import opened Trucks
  import opened Counting

  /**
    The whole simulation state. `pcs[i]` is where truck `i`'s process is
    suspended; `drawn` counts the mining durations sampled so far.
   */
  datatype World = World(
    now: real,
    trucks: seq<MiningTruck>,
    pcs: seq<Pc>,
    station: Resource,
    site: Resource,
    agenda: seq<Event>,
    nextId: nat,
    drawn: nat)

  /** Unload slots held by trucks. */
  function SlotsHeld(w: World): nat {
    CountWhere(w.pcs, HoldsSlot)
  }

  /** Mining-site slots held by trucks. */
  function SitesHeld(w: World): nat {
    CountWhere(w.pcs, AtSite)
  }

  /** One suspension point per truck, and the clock never before time zero. */
  ghost predicate Shaped(w: World) {
    && |w.trucks| == |w.pcs|
    && 0.0 <= w.now
  }

  /** Truck `i`'s counters fit its suspension point and account for no more than the elapsed time. */
  ghost predicate TruckOk(w: World, i: nat)
    requires i < |w.trucks| && i < |w.pcs|
  {
    && TruckInv(w.trucks[i], w.pcs[i])
    && Accounted(w.trucks[i]) <= w.now
    && w.trucks[i].id == i
  }

  ghost predicate TrucksOk(w: World) {
    && |w.trucks| == |w.pcs|
    && forall i :: 0 <= i < |w.pcs| ==> TruckOk(w, i)
  }

  /**
    The unload line holds exactly the waiting trucks, each once, in the order
    they joined it.
   */
  ghost predicate LineOk(w: World) {
    var q := w.station.waiting;
    && (forall k :: 0 <= k < |q| ==> q[k] < |w.pcs| && w.pcs[q[k]].Waiting?)
    && (forall i :: 0 <= i < |w.pcs| && w.pcs[i].Waiting? ==> i in q)
    && (forall a, b :: 0 <= a < b < |q| ==> q[a] != q[b])
    && (forall a, b :: 0 <= a < b < |q| ==> w.pcs[q[a]].since <= w.pcs[q[b]].since)
  }

  /** The station pool counts exactly the trucks holding an unload slot. */
  ghost predicate StationOk(w: World) {
    && w.station.capacity.Bounded? && w.station.capacity.limit >= 1
    && Valid(w.station)
    && w.station.inUse == SlotsHeld(w)
    && LineOk(w)
  }

  /** The site pool counts exactly the trucks at a mining site, and nobody waits for one. */
  ghost predicate SiteOk(w: World) {
    && w.site.capacity.Unbounded?
    && Valid(w.site)
    && w.site.inUse == SitesHeld(w)
    && w.site.waiting == []
  }

  /**
    The pending events are in serving order, none is in the past, each belongs
    to a distinct truck and is due when that truck's counters say it is.
   */
  ghost predicate AgendaOk(w: World) {
    && Sorted(w.agenda)
    && IdsBelow(w.agenda, w.nextId)
    && (forall e :: e in w.agenda ==>
          && e.pid < |w.pcs| && e.pid < |w.trucks|
          && w.now <= e.due
          && Fits(w.trucks[e.pid], w.pcs[e.pid], e.due))
    && (forall e, f :: e in w.agenda && f in w.agenda && e.pid == f.pid ==> e == f)
  }

  /** The counters, the pools and the pending events agree with each other. */
  ghost predicate Safe(w: World) {
    && Shaped(w)
    && TrucksOk(w)
    && StationOk(w)
    && SiteOk(w)
    && AgendaOk(w)
  }

  /**
    Every truck that is not waiting in the unload line has a wake-up pending;
    with `AgendaOk` it is exactly one, since no two events share a truck.
   */
  ghost predicate Live(w: World) {
    forall i {:trigger Scheduled(w.agenda, i)} :: 0 <= i < |w.pcs| && !w.pcs[i].Waiting? ==> Scheduled(w.agenda, i)
  }

  /**
    A truck granted an unload slot resumes at the instant it was granted: its
    pending wake-up is due now, so the slot never sits idle.
   */
  ghost predicate GrantsNow(w: World) {
    forall e :: e in w.agenda && e.pid < |w.pcs| && w.pcs[e.pid].Granted? ==> e.due == w.now
  }

  /** What holds between events. */
  ghost predicate Inv(w: World) {
    Safe(w) && Live(w) && GrantsNow(w)
  }

  /**
    The world at time zero: `n` trucks whose processes are about to start, in
    order, and `station` as the unload pool.
   */
  function Init(n: nat, station: Resource): (w: World)
    requires station.capacity.Bounded? && Valid(station)
    requires station.inUse == 0 && station.waiting == []
    ensures Inv(w)
    ensures |w.trucks| == n && w.now == 0.0 && w.station == station
    ensures forall i :: 0 <= i < n ==> w.trucks[i] == NewTruck(i) && w.pcs[i] == Start
    // every process is registered to start at time zero, in creation order
    ensures |w.agenda| == n && forall i :: 0 <= i < n ==> w.agenda[i] == Event(0.0, i, i)
    ensures w.nextId == n && w.drawn == 0
  {
    var pcs := seq(n, _ => Start);
    var agenda := seq(n, (i: int) requires 0 <= i => Event(0.0, i, i));
    CountNone(pcs, HoldsSlot);
    CountNone(pcs, AtSite);
    assert forall e :: e in agenda ==> e == Event(0.0, e.pid, e.pid) && e.pid < n;
    forall i | 0 <= i < n
      ensures Scheduled(agenda, i)
    {
      assert agenda[i] in agenda && agenda[i].pid == i;
    }
    World(0.0, seq(n, (i: int) requires 0 <= i => NewTruck(i)), pcs, station, NewUnbounded(), agenda, n, 0)
  }

  /** Wakes process `pid` after `delay` minutes; the new event is served after all those scheduled before it for no later. */
  function Schedule(w: World, pid: nat, delay: real): (w': World)
    requires Sorted(w.agenda) && IdsBelow(w.agenda, w.nextId)
    requires delay >= 0.0
    ensures Sorted(w'.agenda) && IdsBelow(w'.agenda, w'.nextId)
    ensures forall e :: e in w'.agenda <==> e in w.agenda || e == Event(w.now + delay, w.nextId, pid)
    ensures w' == w.(agenda := w'.agenda, nextId := w.nextId + 1)
  {
    var e := Event(w.now + delay, w.nextId, pid);
    var q := Insert(w.agenda, e);
    assert forall k :: 0 <= k < |q| ==> q[k] in q;
    w.(agenda := q, nextId := w.nextId + 1)
  }

  /**
    Runs truck `i` from its suspension point at the current time and, unless
    it joined the unload line, schedules its next wake-up.
   */
  function Continue(w: World, i: nat, minutes: real, room: bool): (w': World)
    requires i < |w.trucks| == |w.pcs|
    requires TruckInv(w.trucks[i], w.pcs[i]) && Fits(w.trucks[i], w.pcs[i], w.now)
    requires w.pcs[i].SiteRequested? ==> MinMiningMinutes <= minutes < MaxMiningMinutes
    requires Sorted(w.agenda) && IdsBelow(w.agenda, w.nextId)
    ensures w'.now == w.now && w'.station == w.station && w'.site == w.site
  {
    var p := Resume(w.trucks[i], w.pcs[i], w.now, minutes, room);
    var w1 := w.(trucks := w.trucks[i := p.truck], pcs := w.pcs[i := p.pc]);
    if p.pc.Waiting? then w1 else Schedule(w1, i, PhaseMinutes(p.pc))
  }

  /**
    The world between taking an event off the list and running its truck `i`:
    truck `i` is due now and has no other pending event, and everything else
    is as consistent as in a world satisfying `Inv`.
   */
  ghost predicate Ready(v: World, i: nat) {
    && Shaped(v)
    && i < |v.pcs|
    && (forall j :: 0 <= j < |v.pcs| && j != i ==> TruckOk(v, j))
    && TruckInv(v.trucks[i], v.pcs[i]) && Fits(v.trucks[i], v.pcs[i], v.now)
    && v.trucks[i].id == i
    && Accounted(v.trucks[i]) <= v.now
    && Sorted(v.agenda) && IdsBelow(v.agenda, v.nextId)
    && (forall e :: e in v.agenda ==>
          && e.pid < |v.pcs| && e.pid < |v.trucks| && e.pid != i
          && v.now <= e.due
          && Fits(v.trucks[e.pid], v.pcs[e.pid], e.due))
    && (forall e, f :: e in v.agenda && f in v.agenda && e.pid == f.pid ==> e == f)
  }

  /** Taking the earliest event off the list leaves its truck ready to run. */
  lemma PopMakesReady(w: World)
    requires Safe(w) && |w.agenda| > 0
    ensures Ready(w.(now := w.agenda[0].due, agenda := w.agenda[1..]), w.agenda[0].pid)
    ensures StationOk(w.(now := w.agenda[0].due, agenda := w.agenda[1..]))
    ensures SiteOk(w.(now := w.agenda[0].due, agenda := w.agenda[1..]))
    ensures w.now <= w.agenda[0].due
  {
    var e := w.agenda[0];
    var q := w.agenda[1..];
    var v := w.(now := e.due, agenda := q);
    HeadIsEarliest(w.agenda);
    assert e in w.agenda;
    assert TruckOk(w, e.pid);
    assert forall x :: x in q ==> x in w.agenda;
    assert Sorted(q);
    assert IdsBelow(q, w.nextId) by {
      forall k | 0 <= k < |q| ensures q[k].id < w.nextId {
        assert q[k] == w.agenda[k + 1];
      }
    }
    forall x | x in q
      ensures x.pid != e.pid && e.due <= x.due
    {
      assert x in w.agenda;
      assert x != e;
    }
    forall j | 0 <= j < |v.pcs| && j != e.pid
      ensures TruckOk(v, j)
    {
      assert TruckOk(w, j);
    }
  }

  /**
    Serves the earliest pending event. `u` is the next uniform sample of the
    shared random source, consumed only when the woken truck starts mining.
   */
  function Step(w: World, u: real): (w': World)
    requires Safe(w) && |w.agenda| > 0
    requires 0.0 <= u < 1.0
    ensures w.now <= w'.now == w.agenda[0].due
  {
    PopMakesReady(w);
    Serve(w.(now := w.agenda[0].due, agenda := w.agenda[1..]), w.agenda[0].pid, u)
  }

  /**
    Runs the ready truck `i` from where it is suspended, taking and giving
    back slots on the way as the truck's cycle does.
   */
  function Serve(v: World, i: nat, u: real): (w': World)
    requires Ready(v, i) && StationOk(v) && SiteOk(v)
    requires 0.0 <= u < 1.0
    ensures w'.now == v.now
  {
    match v.pcs[i]
    case Start =>
      Continue(v.(site := Request(v.site, i).resource), i, 0.0, false)
    case SiteRequested =>
      Continue(v.(drawn := v.drawn + 1), i, RandomMiningMinutes(u), false)
    case Mining(_) =>
      Continue(v, i, 0.0, false)
    case ToStation =>
      CountHitsOne(v.pcs, i, AtSite);
      var req := Request(v.station, i);
      Continue(v.(site := Release(v.site).resource, station := req.resource), i, 0.0, req.granted)
    case Granted(_) =>
      Continue(v, i, 0.0, false)
    case Unloading =>
      Continue(v, i, 0.0, false)
    case ToSite =>
      CountHitsOne(v.pcs, i, HoldsSlot);
      var rel := Release(v.station);
      var v1 := v.(station := rel.resource, site := Request(v.site, i).resource);
      (match rel.next
       case None => Continue(v1, i, 0.0, false)
       case Some(h) =>
         // the slot passes to the oldest waiter; its wake-up is scheduled after this truck's
         assert h in v.station.waiting;
         var w1 := Continue(v1.(pcs := v1.pcs[h := Granted(v1.pcs[h].since)]), i, 0.0, false);
         Schedule(w1, h, 0.0))
  }
}
