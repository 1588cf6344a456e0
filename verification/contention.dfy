/**
  With at least as many unload stations as trucks there is never contention:
  every truck arriving at the stations is granted a slot at once, nobody joins
  the line, and no queue time is ever recorded.
 */
module Contention {
  import opened Agenda
  import opened Resources
  import opened Trucks
  import opened Counting
  import opened Engine
  import opened StepProofs
  import opened Wakeups

  /** There are enough unload stations for every truck. */
  ghost predicate Roomy(w: World) {
    w.station.capacity.Bounded? && |w.pcs| <= w.station.capacity.limit
  }

  /**
    Nobody waits, no truck has queue time, and every pending grant wakes its
    truck at the very time it asked.
   */
  ghost predicate Calm(w: World) {
    && (forall i :: 0 <= i < |w.pcs| ==> !w.pcs[i].Waiting?)
    && (forall i :: 0 <= i < |w.trucks| ==> w.trucks[i].timeInQueue == 0.0)
    && (forall e :: e in w.agenda && e.pid < |w.pcs| && w.pcs[e.pid].Granted? ==> e.due == w.pcs[e.pid].since)
  }

  /** Enough stations keep the world calm. */
  ghost predicate NoContention(w: World) {
    Roomy(w) ==> Calm(w)
  }

  /** The world at time zero is calm whatever the number of stations. */
  lemma InitIsCalm(n: nat, station: Resource)
    requires station.capacity.Bounded? && Valid(station)
    requires station.inUse == 0 && station.waiting == []
    ensures Calm(Init(n, station))
  {
    var w := Init(n, station);
    assert forall i :: 0 <= i < |w.trucks| ==> w.trucks[i] == NewTruck(i);
  }

  /** Serving an event with enough stations keeps the world calm. */
  lemma StepKeepsCalm(w: World, u: real)
    requires Inv(w) && |w.agenda| > 0
    requires 0.0 <= u < 1.0
    requires NoContention(w)
    ensures NoContention(Step(w, u))
  {
    PopMakesReady(w);
    var v := w.(now := w.agenda[0].due, agenda := w.agenda[1..]);
    ServeAdvances(v, w.agenda[0].pid, u);
    StepKeepsInv(w, u);
    if Roomy(Step(w, u)) {
      PopKeepsCalm(w);
      ServeKeepsCalm(v, w.agenda[0].pid, u);
    }
  }

  /** Taking the earliest event off a calm list leaves its truck ready to run calmly. */
  lemma PopKeepsCalm(w: World)
    requires Inv(w) && |w.agenda| > 0
    requires Roomy(w) && Calm(w)
    ensures w.agenda[0].pid < |w.pcs|
    ensures CalmReady(w.(now := w.agenda[0].due, agenda := w.agenda[1..]), w.agenda[0].pid)
  {
    var e := w.agenda[0];
    assert e in w.agenda;
    assert forall x :: x in w.agenda[1..] ==> x in w.agenda;
  }

  /** The popped world in which truck `i` is about to run is calm, its own grant included. */
  ghost predicate CalmReady(v: World, i: nat)
    requires i < |v.pcs|
  {
    && Roomy(v)
    && Calm(v)
    && (v.pcs[i].Granted? ==> v.now == v.pcs[i].since)
  }

  /** Running the ready truck with enough stations keeps the world calm. */
  lemma ServeKeepsCalm(v: World, i: nat, u: real)
    requires Ready(v, i) && StationOk(v) && SiteOk(v)
    requires 0.0 <= u < 1.0
    requires CalmReady(v, i)
    ensures Calm(Serve(v, i, u))
  {
    match v.pcs[i]
    case Start =>
      var v1 := v.(site := Request(v.site, i).resource);
      ContinueTouchesOnly(v1, i, 0.0, false);
      CalmAfterContinue(v, v1, i, 0.0, false);
    case SiteRequested =>
      var v1 := v.(drawn := v.drawn + 1);
      ServeUnfoldsMining(v, i, u);
      ContinueTouchesOnly(v1, i, RandomMiningMinutes(u), false);
      CalmAfterContinue(v, v1, i, RandomMiningMinutes(u), false);
    case Mining(_) =>
      ContinueTouchesOnly(v, i, 0.0, false);
      CalmAfterContinue(v, v, i, 0.0, false);
    case Granted(_) =>
      ContinueTouchesOnly(v, i, 0.0, false);
      CalmAfterContinue(v, v, i, 0.0, false);
    case Unloading =>
      ContinueTouchesOnly(v, i, 0.0, false);
      CalmAfterContinue(v, v, i, 0.0, false);
    case ToStation =>
      ArrivalIsGranted(v, i);
      CountHitsOne(v.pcs, i, AtSite);
      var v1 := v.(site := Release(v.site).resource, station := Request(v.station, i).resource);
      ContinueTouchesOnly(v1, i, 0.0, true);
      CalmAfterContinue(v, v1, i, 0.0, true);
    case ToSite =>
      CountHitsOne(v.pcs, i, HoldsSlot);
      CalmLineIsEmpty(v);
      var v1 := v.(station := Release(v.station).resource, site := Request(v.site, i).resource);
      ContinueTouchesOnly(v1, i, 0.0, false);
      CalmAfterContinue(v, v1, i, 0.0, false);
  }

  /** Truck `x` exists and waits in the unload line. */
  predicate WaitingAt(pcs: seq<Pc>, x: nat) {
    x < |pcs| && pcs[x].Waiting?
  }

  /** In a calm world the unload line is empty. */
  lemma CalmLineIsEmpty(w: World)
    requires StationOk(w) && Calm(w)
    ensures w.station.waiting == []
  {
    LineHeadWaits(w);
  }

  /** The truck at the head of the unload line is waiting. */
  lemma LineHeadWaits(w: World)
    requires StationOk(w)
    ensures |w.station.waiting| > 0 ==> WaitingAt(w.pcs, w.station.waiting[0])
  {
  }

  /** A truck arriving at the stations finds a free slot when there are enough of them. */
  lemma ArrivalIsGranted(v: World, i: nat)
    requires Ready(v, i) && StationOk(v)
    requires Roomy(v) && v.pcs[i].ToStation?
    ensures HasRoom(v.station)
  {
    CountMissesOne(v.pcs, i, HoldsSlot);
  }

  /**
    Resuming truck `i` from the calm world `v`, through a world `v1` that
    differs at most in its pools and sample count, keeps the world calm,
    provided the truck does not end up waiting.
   */
  lemma CalmAfterContinue(v: World, v1: World, i: nat, minutes: real, room: bool)
    requires Ready(v, i) && CalmReady(v, i)
    requires v1.now == v.now && v1.trucks == v.trucks && v1.pcs == v.pcs
    requires v1.agenda == v.agenda && v1.nextId == v.nextId
    requires v.pcs[i].SiteRequested? ==> MinMiningMinutes <= minutes < MaxMiningMinutes
    requires v.pcs[i].ToStation? ==> room
    requires var w' := Continue(v1, i, minutes, room);
             && w'.trucks == v.trucks[i := Resume(v.trucks[i], v.pcs[i], v.now, minutes, room).truck]
             && w'.pcs == v.pcs[i := Resume(v.trucks[i], v.pcs[i], v.now, minutes, room).pc]
             && forall x :: x in w'.agenda ==>
                  || x in v.agenda
                  || (x.pid == i && x.due == v.now + PhaseMinutes(Resume(v.trucks[i], v.pcs[i], v.now, minutes, room).pc))
    ensures Calm(Continue(v1, i, minutes, room))
  {
    var p := Resume(v.trucks[i], v.pcs[i], v.now, minutes, room);
    var w' := Continue(v1, i, minutes, room);
    forall x | x in w'.agenda && x.pid < |w'.pcs| && w'.pcs[x.pid].Granted?
      ensures x.due == w'.pcs[x.pid].since
    {
      if x in v.agenda {
        assert x.pid != i;
      }
    }
  }
}
