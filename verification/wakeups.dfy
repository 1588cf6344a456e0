/**
  No truck is ever forgotten: every truck that is not waiting in the unload
  line has a wake-up pending. A woken truck schedules its next wake-up unless
  it joins the line, and a truck leaving the line is scheduled when the slot
  is handed to it.
 */
module Wakeups {
  import opened Agenda
  import opened Resources
  import opened Trucks
  import opened Counting
  import opened Engine

  /** Running truck `i` touches no other truck's counters or suspension point. */
  lemma ContinueTouchesOnly(v: World, i: nat, minutes: real, room: bool)
    requires i < |v.trucks| == |v.pcs|
    requires TruckInv(v.trucks[i], v.pcs[i]) && Fits(v.trucks[i], v.pcs[i], v.now)
    requires v.pcs[i].SiteRequested? ==> MinMiningMinutes <= minutes < MaxMiningMinutes
    requires Sorted(v.agenda) && IdsBelow(v.agenda, v.nextId)
    ensures Continue(v, i, minutes, room).trucks == v.trucks[i := Resume(v.trucks[i], v.pcs[i], v.now, minutes, room).truck]
    ensures Continue(v, i, minutes, room).pcs == v.pcs[i := Resume(v.trucks[i], v.pcs[i], v.now, minutes, room).pc]
    ensures forall x :: x in Continue(v, i, minutes, room).agenda ==>
              || x in v.agenda
              || (x.pid == i && x.due == v.now + PhaseMinutes(Resume(v.trucks[i], v.pcs[i], v.now, minutes, room).pc))
  {
  }

  /** Serving a truck that holds a mining site resumes it with the duration drawn from `u`. */
  lemma ServeUnfoldsMining(v: World, i: nat, u: real)
    requires Ready(v, i) && StationOk(v) && SiteOk(v)
    requires 0.0 <= u < 1.0
    requires v.pcs[i].SiteRequested?
    ensures Serve(v, i, u) == Continue(v.(drawn := v.drawn + 1), i, RandomMiningMinutes(u), false)
  {
  }

  /**
    A truck granted a mining site consumes one sample and mines for the
    duration drawn from it: the clock, the pools and every truck's counters
    stay as they were, and the only new event is its own wake-up when the
    session ends.
   */
  lemma ServeStartsMining(v: World, i: nat, u: real)
    requires Ready(v, i) && StationOk(v) && SiteOk(v)
    requires 0.0 <= u < 1.0
    requires v.pcs[i].SiteRequested?
    ensures var d := RandomMiningMinutes(u); var w' := Serve(v, i, u);
            && MinMiningMinutes <= d < MaxMiningMinutes
            && w'.now == v.now && w'.drawn == v.drawn + 1
            && w'.trucks == v.trucks
            && w'.pcs == v.pcs[i := Mining(d)]
            && w'.station == v.station && w'.site == v.site
            && w'.nextId == v.nextId + 1
            && (forall x :: x in w'.agenda <==> x in v.agenda || x == Event(v.now + d, v.nextId, i))
  {
    ServeUnfoldsMining(v, i, u);
    assert v.trucks[i := v.trucks[i]] == v.trucks;
  }

  /** Every truck outside `s` that is not waiting has a wake-up pending. */
  ghost predicate LiveBut(w: World, s: set<nat>) {
    forall j :: 0 <= j < |w.pcs| && j !in s && !w.pcs[j].Waiting? ==> Scheduled(w.agenda, j)
  }

  /**
    Running truck `i` keeps every pending wake-up and, unless the truck joins
    the unload line, adds its next one.
   */
  lemma ContinueSchedulesNext(v: World, i: nat, minutes: real, room: bool)
    requires i < |v.trucks| == |v.pcs|
    requires TruckInv(v.trucks[i], v.pcs[i]) && Fits(v.trucks[i], v.pcs[i], v.now)
    requires v.pcs[i].SiteRequested? ==> MinMiningMinutes <= minutes < MaxMiningMinutes
    requires Sorted(v.agenda) && IdsBelow(v.agenda, v.nextId)
    ensures Continue(v, i, minutes, room).pcs == v.pcs[i := Resume(v.trucks[i], v.pcs[i], v.now, minutes, room).pc]
    ensures Sorted(Continue(v, i, minutes, room).agenda)
    ensures IdsBelow(Continue(v, i, minutes, room).agenda, Continue(v, i, minutes, room).nextId)
    ensures forall x :: x in v.agenda ==> x in Continue(v, i, minutes, room).agenda
    ensures !Resume(v.trucks[i], v.pcs[i], v.now, minutes, room).pc.Waiting? ==>
              Scheduled(Continue(v, i, minutes, room).agenda, i)
  {
    var p := Resume(v.trucks[i], v.pcs[i], v.now, minutes, room);
    if !p.pc.Waiting? {
      assert Event(v.now + PhaseMinutes(p.pc), v.nextId, i) in Continue(v, i, minutes, room).agenda;
    }
  }

  /** Running truck `i` leaves every other truck that had a wake-up with one, and gives `i` its next. */
  lemma ContinueKeepsLive(v: World, i: nat, minutes: real, room: bool, s: set<nat>)
    requires i < |v.trucks| == |v.pcs|
    requires TruckInv(v.trucks[i], v.pcs[i]) && Fits(v.trucks[i], v.pcs[i], v.now)
    requires v.pcs[i].SiteRequested? ==> MinMiningMinutes <= minutes < MaxMiningMinutes
    requires Sorted(v.agenda) && IdsBelow(v.agenda, v.nextId)
    requires LiveBut(v, s + {i})
    ensures LiveBut(Continue(v, i, minutes, room), s)
  {
    var w' := Continue(v, i, minutes, room);
    ContinueSchedulesNext(v, i, minutes, room);
    forall j | 0 <= j < |w'.pcs| && j !in s && !w'.pcs[j].Waiting?
      ensures Scheduled(w'.agenda, j)
    {
      if j != i {
        assert w'.pcs[j] == v.pcs[j];
        var x :| x in v.agenda && x.pid == j;
        assert x in w'.agenda;
      }
    }
  }

  /** Scheduling truck `h` gives it a pending wake-up and keeps everyone else's. */
  lemma ScheduleKeepsLive(w: World, h: nat, s: set<nat>)
    requires Sorted(w.agenda) && IdsBelow(w.agenda, w.nextId)
    requires LiveBut(w, s + {h})
    ensures LiveBut(Schedule(w, h, 0.0), s)
  {
    var w' := Schedule(w, h, 0.0);
    forall j | 0 <= j < |w'.pcs| && j !in s && !w'.pcs[j].Waiting?
      ensures Scheduled(w'.agenda, j)
    {
      if j == h {
        assert Event(w.now + 0.0, w.nextId, h) in w'.agenda;
      } else {
        var x :| x in w.agenda && x.pid == j;
        assert x in w'.agenda;
      }
    }
  }

  /** Taking the earliest event off the list leaves every other truck's wake-up pending. */
  lemma PopKeepsOthersLive(w: World)
    requires Inv(w) && |w.agenda| > 0
    ensures LiveBut(w.(now := w.agenda[0].due, agenda := w.agenda[1..]), {w.agenda[0].pid})
  {
    var e := w.agenda[0];
    var q := w.agenda[1..];
    forall j | 0 <= j < |w.pcs| && j !in {e.pid} && !w.pcs[j].Waiting?
      ensures Scheduled(q, j)
    {
      assert Scheduled(w.agenda, j);
      var x :| x in w.agenda && x.pid == j;
      var k :| 0 <= k < |w.agenda| && w.agenda[k] == x;
      assert k != 0;
      assert q[k - 1] == x;
    }
  }

  /** Running the ready truck gives it its next wake-up, or the slot's new holder theirs. */
  lemma ServeKeepsLive(v: World, i: nat, u: real)
    requires Ready(v, i) && StationOk(v) && SiteOk(v)
    requires 0.0 <= u < 1.0
    requires LiveBut(v, {i})
    ensures Live(Serve(v, i, u))
  {
    var none: set<nat> := {};
    assert none + {i} == {i};
    match v.pcs[i]
    case Start =>
      ContinueKeepsLive(v.(site := Request(v.site, i).resource), i, 0.0, false, none);
    case SiteRequested =>
      ServeUnfoldsMining(v, i, u);
      ContinueKeepsLive(v.(drawn := v.drawn + 1), i, RandomMiningMinutes(u), false, none);
    case Mining(_) =>
      ContinueKeepsLive(v, i, 0.0, false, none);
    case Granted(_) =>
      ContinueKeepsLive(v, i, 0.0, false, none);
    case Unloading =>
      ContinueKeepsLive(v, i, 0.0, false, none);
    case ToStation =>
      CountHitsOne(v.pcs, i, AtSite);
      var req := Request(v.station, i);
      ContinueKeepsLive(v.(site := Release(v.site).resource, station := req.resource), i, 0.0, req.granted, none);
    case ToSite =>
      ReturnKeepsLive(v, i, u);
  }

  /** The returning truck's step, with or without a hand-over, as in `ServeKeepsLive`. */
  lemma ReturnKeepsLive(v: World, i: nat, u: real)
    requires Ready(v, i) && StationOk(v) && SiteOk(v)
    requires 0.0 <= u < 1.0
    requires v.pcs[i].ToSite?
    requires LiveBut(v, {i})
    ensures Live(Serve(v, i, u))
  {
    CountHitsOne(v.pcs, i, HoldsSlot);
    var none: set<nat> := {};
    var rel := Release(v.station);
    var v1 := v.(station := rel.resource, site := Request(v.site, i).resource);
    if |v.station.waiting| == 0 {
      assert none + {i} == {i};
      ContinueKeepsLive(v1, i, 0.0, false, none);
    } else {
      var h := v.station.waiting[0];
      assert h < |v.pcs| && v.pcs[h].Waiting?;
      var v2 := v1.(pcs := v1.pcs[h := Granted(v1.pcs[h].since)]);
      HandOverKeepsLive(v, v2, i, h);
      assert Serve(v, i, u) == Schedule(Continue(v2, i, 0.0, false), h, 0.0);
    }
  }

  /**
    After the returning truck `i` hands its slot to the waiting truck `h`,
    running `i` and then scheduling `h` leaves every truck outside the line
    with a wake-up pending.
   */
  lemma HandOverKeepsLive(v: World, v2: World, i: nat, h: nat)
    requires Ready(v, i) && v.pcs[i].ToSite?
    requires h < |v.pcs| && v.pcs[h].Waiting?
    requires LiveBut(v, {i})
    requires v2.now == v.now && v2.trucks == v.trucks && v2.agenda == v.agenda && v2.nextId == v.nextId
    requires v2.pcs == v.pcs[h := Granted(v.pcs[h].since)]
    ensures Sorted(Continue(v2, i, 0.0, false).agenda)
    ensures IdsBelow(Continue(v2, i, 0.0, false).agenda, Continue(v2, i, 0.0, false).nextId)
    ensures Live(Schedule(Continue(v2, i, 0.0, false), h, 0.0))
  {
    var none: set<nat> := {};
    assert LiveBut(v2, {h} + {i});
    ContinueKeepsLive(v2, i, 0.0, false, {h});
    var w1 := Continue(v2, i, 0.0, false);
    ContinueSchedulesNext(v2, i, 0.0, false);
    assert none + {h} == {h};
    ScheduleKeepsLive(w1, h, none);
  }

  /** Serving the earliest event leaves every truck outside the unload line with a wake-up pending. */
  lemma StepKeepsLive(w: World, u: real)
    requires Inv(w) && |w.agenda| > 0
    requires 0.0 <= u < 1.0
    ensures Live(Step(w, u))
  {
    PopMakesReady(w);
    PopKeepsOthersLive(w);
    ServeKeepsLive(w.(now := w.agenda[0].due, agenda := w.agenda[1..]), w.agenda[0].pid, u);
  }

  /** How many of the pending events wake process `pid`. */
  function WakeUpsOf(q: seq<Event>, pid: nat): nat {
    CountWhere(q, (e: Event) => e.pid == pid)
  }

  /**
    In a list in serving order where no two events share a process, a process
    has one pending event if it is scheduled at all, and none otherwise.
   */
  lemma {:induction false} WakeUpsOfDistinct(q: seq<Event>, pid: nat)
    requires Sorted(q)
    requires forall e, f :: e in q && f in q && e.pid == f.pid ==> e == f
    ensures WakeUpsOf(q, pid) == if Scheduled(q, pid) then 1 else 0
  {
    if |q| > 0 {
      var rest := q[1..];
      assert forall x :: x in rest ==> x in q;
      assert Sorted(rest);
      if q[0].pid == pid {
        assert q[0] in q;
        forall k | 0 <= k < |rest|
          ensures rest[k].pid != pid
        {
          assert Before(q[0], q[k + 1]);
        }
        CountNone(rest, (e: Event) => e.pid == pid);
      } else {
        WakeUpsOfDistinct(rest, pid);
        assert q == [q[0]] + rest;
        assert Scheduled(q, pid) ==> Scheduled(rest, pid);
      }
    }
  }

  /**
    In a consistent world a truck that is not waiting in the unload line has
    exactly one wake-up pending, and a waiting truck has none.
   */
  lemma OneWakeUpEach(w: World, i: nat)
    requires Inv(w) && i < |w.pcs|
    ensures WakeUpsOf(w.agenda, i) == if w.pcs[i].Waiting? then 0 else 1
  {
    WakeUpsOfDistinct(w.agenda, i);
    if Scheduled(w.agenda, i) {
      var e :| e in w.agenda && e.pid == i;
      assert Fits(w.trucks[i], w.pcs[i], e.due);
    }
  }

  /** A truck that has not started its cycle has a wake-up due at time zero, before any positive horizon. */
  lemma UnstartedIsDue(w: World, i: nat, t: real)
    requires Inv(w) && i < |w.pcs| && t > 0.0
    ensures w.trucks[i].currStep == Unknown ==> |w.agenda| > 0 && w.agenda[0].due < t
  {
    assert TruckOk(w, i);
    if w.trucks[i].currStep == Unknown {
      assert Scheduled(w.agenda, i);
      var e :| e in w.agenda && e.pid == i;
      HeadIsEarliest(w.agenda);
    }
  }

  /**
    Taking the earliest event off the list cannot move the clock while a
    granted truck is pending, so every pending grant is still due now.
   */
  lemma PopGrantsNow(w: World)
    requires Inv(w) && |w.agenda| > 0
    ensures GrantsNow(w.(now := w.agenda[0].due, agenda := w.agenda[1..]))
  {
    var e := w.agenda[0];
    var v := w.(now := e.due, agenda := w.agenda[1..]);
    HeadIsEarliest(w.agenda);
    assert e in w.agenda;
    forall x | x in v.agenda && x.pid < |v.pcs| && v.pcs[x.pid].Granted?
      ensures x.due == v.now
    {
      assert x in w.agenda;
    }
  }

  /**
    Running truck `i`, which has no pending event, keeps every pending grant
    due now; if `i` itself is granted, its wake-up is due now too.
   */
  lemma ContinueGrantsNow(v: World, i: nat, minutes: real, room: bool)
    requires i < |v.trucks| == |v.pcs|
    requires TruckInv(v.trucks[i], v.pcs[i]) && Fits(v.trucks[i], v.pcs[i], v.now)
    requires v.pcs[i].SiteRequested? ==> MinMiningMinutes <= minutes < MaxMiningMinutes
    requires Sorted(v.agenda) && IdsBelow(v.agenda, v.nextId)
    requires forall x :: x in v.agenda ==> x.pid != i
    requires GrantsNow(v)
    ensures GrantsNow(Continue(v, i, minutes, room))
  {
    var w' := Continue(v, i, minutes, room);
    ContinueTouchesOnly(v, i, minutes, room);
    forall x | x in w'.agenda && x.pid < |w'.pcs| && w'.pcs[x.pid].Granted?
      ensures x.due == w'.now
    {
      if x in v.agenda {
        assert w'.pcs[x.pid] == v.pcs[x.pid];
      }
    }
  }

  /** Serving the ready truck keeps every pending grant due now. */
  lemma ServeGrantsNow(v: World, i: nat, u: real)
    requires Ready(v, i) && StationOk(v) && SiteOk(v)
    requires 0.0 <= u < 1.0
    requires GrantsNow(v)
    ensures GrantsNow(Serve(v, i, u))
  {
    match v.pcs[i]
    case Start =>
      ContinueGrantsNow(v.(site := Request(v.site, i).resource), i, 0.0, false);
    case SiteRequested =>
      ServeUnfoldsMining(v, i, u);
      ContinueGrantsNow(v.(drawn := v.drawn + 1), i, RandomMiningMinutes(u), false);
    case Mining(_) =>
      ContinueGrantsNow(v, i, 0.0, false);
    case Granted(_) =>
      ContinueGrantsNow(v, i, 0.0, false);
    case Unloading =>
      ContinueGrantsNow(v, i, 0.0, false);
    case ToStation =>
      CountHitsOne(v.pcs, i, AtSite);
      var req := Request(v.station, i);
      ContinueGrantsNow(v.(site := Release(v.site).resource, station := req.resource), i, 0.0, req.granted);
    case ToSite =>
      ReturnGrantsNow(v, i, u);
  }

  /**
    The returning truck's step: a waiter handed the freed slot is woken at
    this very instant, not later.
   */
  lemma ReturnGrantsNow(v: World, i: nat, u: real)
    requires Ready(v, i) && StationOk(v) && SiteOk(v)
    requires 0.0 <= u < 1.0
    requires v.pcs[i].ToSite?
    requires GrantsNow(v)
    ensures GrantsNow(Serve(v, i, u))
  {
    CountHitsOne(v.pcs, i, HoldsSlot);
    var rel := Release(v.station);
    var v1 := v.(station := rel.resource, site := Request(v.site, i).resource);
    if |v.station.waiting| == 0 {
      ContinueGrantsNow(v1, i, 0.0, false);
    } else {
      var h := v.station.waiting[0];
      assert h < |v.pcs| && v.pcs[h].Waiting?;
      var v2 := v1.(pcs := v1.pcs[h := Granted(v1.pcs[h].since)]);
      HandOverGrantsNow(v, v2, i, h);
      assert Serve(v, i, u) == Schedule(Continue(v2, i, 0.0, false), h, 0.0);
    }
  }

  /** After the hand-over to `h`, running `i` and scheduling `h` at once keeps every grant due now. */
  lemma HandOverGrantsNow(v: World, v2: World, i: nat, h: nat)
    requires Ready(v, i) && v.pcs[i].ToSite?
    requires h < |v.pcs| && v.pcs[h].Waiting?
    requires GrantsNow(v)
    requires v2.now == v.now && v2.trucks == v.trucks && v2.agenda == v.agenda && v2.nextId == v.nextId
    requires v2.pcs == v.pcs[h := Granted(v.pcs[h].since)]
    ensures Sorted(Continue(v2, i, 0.0, false).agenda)
    ensures IdsBelow(Continue(v2, i, 0.0, false).agenda, Continue(v2, i, 0.0, false).nextId)
    ensures GrantsNow(Schedule(Continue(v2, i, 0.0, false), h, 0.0))
  {
    // a waiting truck has no pending event, so the new grant has none yet
    forall x | x in v.agenda
      ensures x.pid != h
    {
      assert Fits(v.trucks[x.pid], v.pcs[x.pid], x.due);
    }
    ContinueGrantsNow(v2, i, 0.0, false);
    ContinueSchedulesNext(v2, i, 0.0, false);
    var w1 := Continue(v2, i, 0.0, false);
    var w' := Schedule(w1, h, 0.0);
    forall x | x in w'.agenda && x.pid < |w'.pcs| && w'.pcs[x.pid].Granted?
      ensures x.due == w'.now
    {
    }
  }

  /** Serving the earliest event keeps every pending grant due at the current instant. */
  lemma StepGrantsNow(w: World, u: real)
    requires Inv(w) && |w.agenda| > 0
    requires 0.0 <= u < 1.0
    ensures GrantsNow(Step(w, u))
  {
    PopMakesReady(w);
    PopGrantsNow(w);
    ServeGrantsNow(w.(now := w.agenda[0].due, agenda := w.agenda[1..]), w.agenda[0].pid, u);
  }

  /**
    A step consumes a sample of the random source exactly when the woken truck
    starts a mining session, and that session lasts the duration drawn from it.
   */
  lemma StepDrawsOnlyToMine(w: World, u: real)
    requires Inv(w) && |w.agenda| > 0
    requires 0.0 <= u < 1.0
    ensures w.agenda[0].pid < |w.pcs|
    ensures var i := w.agenda[0].pid; var w' := Step(w, u);
            && w'.drawn == w.drawn + (if w.pcs[i].SiteRequested? then 1 else 0)
            && (w.pcs[i].SiteRequested? ==> w'.pcs[i] == Mining(RandomMiningMinutes(u)))
  {
    PopMakesReady(w);
    var i := w.agenda[0].pid;
    var v := w.(now := w.agenda[0].due, agenda := w.agenda[1..]);
    if w.pcs[i].SiteRequested? {
      ServeStartsMining(v, i, u);
    }
  }
}
