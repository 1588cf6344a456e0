/**
  Every step of the engine keeps the world consistent: counters fit their
  trucks' phases and the elapsed time, the pools count exactly their holders,
  the unload line is first come, first served, and the pending events are in
  serving order.
 */
module StepProofs {
  import opened Wrappers
  import opened Agenda
  import opened Resources
  import opened Trucks
  import opened Counting
  import opened Engine
  import opened Wakeups

  /** Readiness does not depend on the pools or on the count of samples drawn. */
  lemma ReadyIgnoresPools(v: World, v': World, i: nat)
    requires Ready(v, i)
    requires v'.now == v.now && v'.trucks == v.trucks && v'.pcs == v.pcs
    requires v'.agenda == v.agenda && v'.nextId == v.nextId
    ensures Ready(v', i)
  {
    forall j | 0 <= j < |v'.pcs| && j != i
      ensures TruckOk(v', j)
    {
      assert TruckOk(v, j);
    }
  }

  /** Running the ready truck keeps the world consistent, given pools that match its new phase. */
  lemma ContinueKeepsSafe(v: World, i: nat, minutes: real, room: bool)
    requires Ready(v, i)
    requires v.pcs[i].SiteRequested? ==> MinMiningMinutes <= minutes < MaxMiningMinutes
    requires StationOk(v.(pcs := v.pcs[i := Resume(v.trucks[i], v.pcs[i], v.now, minutes, room).pc]))
    requires SiteOk(v.(pcs := v.pcs[i := Resume(v.trucks[i], v.pcs[i], v.now, minutes, room).pc]))
    ensures Safe(Continue(v, i, minutes, room))
    ensures forall x :: x in Continue(v, i, minutes, room).agenda ==> x in v.agenda || x.pid == i
  {
    var p := Resume(v.trucks[i], v.pcs[i], v.now, minutes, room);
    var w' := Continue(v, i, minutes, room);
    assert w'.pcs == v.pcs[i := p.pc];
    ContinueKeepsTrucks(v, i, minutes, room);
    ContinueKeepsAgenda(v, i, minutes, room);
    assert StationOk(w');
    assert SiteOk(w');
  }

  /** Running the ready truck leaves every truck's counters consistent. */
  lemma ContinueKeepsTrucks(v: World, i: nat, minutes: real, room: bool)
    requires Ready(v, i)
    requires v.pcs[i].SiteRequested? ==> MinMiningMinutes <= minutes < MaxMiningMinutes
    ensures Shaped(Continue(v, i, minutes, room))
    ensures TrucksOk(Continue(v, i, minutes, room))
  {
    var p := Resume(v.trucks[i], v.pcs[i], v.now, minutes, room);
    var w' := Continue(v, i, minutes, room);
    assert w'.trucks == v.trucks[i := p.truck] && w'.pcs == v.pcs[i := p.pc];
    forall j | 0 <= j < |w'.pcs|
      ensures TruckOk(w', j)
    {
      if j != i {
        assert TruckOk(v, j);
      }
    }
  }

  /** Running the ready truck leaves the pending events consistent, its own next wake-up included. */
  lemma ContinueKeepsAgenda(v: World, i: nat, minutes: real, room: bool)
    requires Ready(v, i)
    requires v.pcs[i].SiteRequested? ==> MinMiningMinutes <= minutes < MaxMiningMinutes
    ensures AgendaOk(Continue(v, i, minutes, room))
    ensures forall x :: x in Continue(v, i, minutes, room).agenda ==> x in v.agenda || x.pid == i
  {
    var p := Resume(v.trucks[i], v.pcs[i], v.now, minutes, room);
    var w' := Continue(v, i, minutes, room);
    assert w'.trucks == v.trucks[i := p.truck] && w'.pcs == v.pcs[i := p.pc];
    forall x | x in w'.agenda
      ensures x.pid < |w'.pcs| && w'.now <= x.due && Fits(w'.trucks[x.pid], w'.pcs[x.pid], x.due)
      ensures x in v.agenda || x.pid == i
    {
      if x in v.agenda {
        assert w'.trucks[x.pid] == v.trucks[x.pid] && w'.pcs[x.pid] == v.pcs[x.pid];
      }
    }
  }

  /** Handing a pending grant its wake-up at the current time keeps the world consistent. */
  lemma WakeGrantedKeepsSafe(w: World, h: nat)
    requires Safe(w) && h < |w.pcs| && w.pcs[h].Granted?
    requires forall x :: x in w.agenda ==> x.pid != h
    ensures Safe(Schedule(w, h, 0.0))
  {
    var w' := Schedule(w, h, 0.0);
    assert TruckOk(w, h);
    forall j | 0 <= j < |w'.pcs|
      ensures TruckOk(w', j)
    {
      assert TruckOk(w, j);
    }
  }

  /** A phase change that neither takes, gives back nor waits for an unload slot keeps the station's books. */
  lemma StationBooksUnchanged(w: World, i: nat, x: Pc)
    requires StationOk(w) && i < |w.pcs|
    requires !w.pcs[i].Waiting? && !x.Waiting? && HoldsSlot(w.pcs[i]) == HoldsSlot(x)
    ensures StationOk(w.(pcs := w.pcs[i := x]))
  {
    CountAfterUpdate(w.pcs, i, x, HoldsSlot);
  }

  /** A phase change that neither takes nor gives back a mining-site slot keeps the site's books. */
  lemma SiteBooksUnchanged(w: World, i: nat, x: Pc)
    requires SiteOk(w) && i < |w.pcs|
    requires AtSite(w.pcs[i]) == AtSite(x)
    ensures SiteOk(w.(pcs := w.pcs[i := x]))
  {
    CountAfterUpdate(w.pcs, i, x, AtSite);
  }

  /** Serving the earliest event keeps the world consistent and moves the clock forward to its due time. */
  lemma StepKeepsInv(w: World, u: real)
    requires Inv(w) && |w.agenda| > 0
    requires 0.0 <= u < 1.0
    ensures Inv(Step(w, u))
    ensures w.now <= Step(w, u).now == w.agenda[0].due
  {
    PopMakesReady(w);
    var v := w.(now := w.agenda[0].due, agenda := w.agenda[1..]);
    ServeKeepsSafe(v, w.agenda[0].pid, u);
    StepKeepsLive(w, u);
    StepGrantsNow(w, u);
  }

  /**
    Serving the earliest event moves no truck's counters backwards, keeps the
    number of unload stations, and changes the unload line only at its ends:
    the woken truck joins the end, or the head is granted a slot.
   */
  lemma StepAdvances(w: World, u: real)
    requires Safe(w) && |w.agenda| > 0
    requires 0.0 <= u < 1.0
    ensures |Step(w, u).trucks| == |w.trucks|
    ensures forall j :: 0 <= j < |w.trucks| ==> Advances(w.trucks[j], Step(w, u).trucks[j])
    ensures Step(w, u).station.capacity == w.station.capacity
    ensures var q := w.station.waiting; var q' := Step(w, u).station.waiting;
            q' == q || q' == q + [w.agenda[0].pid] || (|q| > 0 && q' == q[1..])
  {
    PopMakesReady(w);
    ServeAdvances(w.(now := w.agenda[0].due, agenda := w.agenda[1..]), w.agenda[0].pid, u);
  }

  /** Running the ready truck, with its pool operations, keeps the world consistent. */
  lemma ServeKeepsSafe(v: World, i: nat, u: real)
    requires Ready(v, i) && StationOk(v) && SiteOk(v)
    requires 0.0 <= u < 1.0
    ensures Safe(Serve(v, i, u))
    ensures Serve(v, i, u).now == v.now
  {
    match v.pcs[i]
    case Start => StartKeepsSafe(v, i, u);
    case SiteRequested => MiningStartKeepsSafe(v, i, u);
    case Mining(_) => PhaseEndKeepsSafe(v, i, u);
    case Granted(_) => PhaseEndKeepsSafe(v, i, u);
    case Unloading => PhaseEndKeepsSafe(v, i, u);
    case ToStation => ToStationKeepsSafe(v, i, u);
    case ToSite =>
      if |v.station.waiting| == 0 {
        ReturnToFreeStation(v, i, u);
      } else {
        ReturnToBusyStation(v, i, u);
      }
  }

  /** A truck whose process starts reports it is at a mining site and takes a site slot. */
  lemma StartKeepsSafe(v: World, i: nat, u: real)
    requires Ready(v, i) && StationOk(v) && SiteOk(v)
    requires 0.0 <= u < 1.0
    requires v.pcs[i].Start?
    ensures Safe(Serve(v, i, u))
  {
    var v1 := v.(site := Request(v.site, i).resource);
    assert Resume(v.trucks[i], Start, v.now, 0.0, false).pc == SiteRequested;
    StationBooksUnchanged(v, i, SiteRequested);
    CountAfterUpdate(v.pcs, i, SiteRequested, AtSite);
    ReadyIgnoresPools(v, v1, i);
    ContinueKeepsSafe(v1, i, 0.0, false);
  }

  /** Starting a mining session draws a duration and leaves both pools alone. */
  lemma MiningStartKeepsSafe(v: World, i: nat, u: real)
    requires Ready(v, i) && StationOk(v) && SiteOk(v)
    requires 0.0 <= u < 1.0
    requires v.pcs[i].SiteRequested?
    ensures Safe(Serve(v, i, u))
  {
    var d := RandomMiningMinutes(u);
    var v1 := v.(drawn := v.drawn + 1);
    DrawKeepsPools(v, v1);
    StationBooksUnchanged(v1, i, Mining(d));
    SiteBooksUnchanged(v1, i, Mining(d));
    ReadyIgnoresPools(v, v1, i);
    ServeUnfoldsMining(v, i, u);
    ContinueKeepsSafe(v1, i, d, false);
  }

  /** The pools' books do not depend on how many samples have been drawn. */
  lemma DrawKeepsPools(v: World, v1: World)
    requires StationOk(v) && SiteOk(v)
    requires v1 == v.(drawn := v1.drawn)
    ensures StationOk(v1) && SiteOk(v1)
  {
    assert SlotsHeld(v1) == SlotsHeld(v) && SitesHeld(v1) == SitesHeld(v);
  }

  /** Finishing a mining session, a grant wake-up or an unload leaves both pools alone. */
  lemma PhaseEndKeepsSafe(v: World, i: nat, u: real)
    requires Ready(v, i) && StationOk(v) && SiteOk(v)
    requires 0.0 <= u < 1.0
    requires v.pcs[i].Mining? || v.pcs[i].Granted? || v.pcs[i].Unloading?
    ensures Safe(Serve(v, i, u))
  {
    var x := Resume(v.trucks[i], v.pcs[i], v.now, 0.0, false).pc;
    assert x == match v.pcs[i] case Mining(_) => ToStation case Granted(_) => Unloading case _ => ToSite;
    StationBooksUnchanged(v, i, x);
    SiteBooksUnchanged(v, i, x);
    ContinueKeepsSafe(v, i, 0.0, false);
  }

  /** A truck arriving at the stations gives back its site slot and is granted an unload slot or joins the line. */
  lemma ToStationKeepsSafe(v: World, i: nat, u: real)
    requires Ready(v, i) && StationOk(v) && SiteOk(v)
    requires 0.0 <= u < 1.0
    requires v.pcs[i].ToStation?
    ensures Safe(Serve(v, i, u))
  {
    CountHitsOne(v.pcs, i, AtSite);
    var req := Request(v.station, i);
    var v1 := v.(site := Release(v.site).resource, station := req.resource);
    var x := if req.granted then Granted(v.now) else Waiting(v.now);
    assert Resume(v.trucks[i], ToStation, v.now, 0.0, req.granted).pc == x;
    ArrivalBooks(v, v1.(pcs := v.pcs[i := x]), i, req.granted);
    ReadyIgnoresPools(v, v1, i);
    ContinueKeepsSafe(v1, i, 0.0, req.granted);
  }

  /** The pools' books after truck `i` drives off its site and asks for an unload slot. */
  lemma ArrivalBooks(v: World, v': World, i: nat, granted: bool)
    requires Ready(v, i) && StationOk(v) && SiteOk(v)
    requires v.pcs[i].ToStation? && SitesHeld(v) >= 1
    requires granted == Request(v.station, i).granted
    requires v'.site == Release(v.site).resource && v'.station == Request(v.station, i).resource
    requires v'.pcs == v.pcs[i := if granted then Granted(v.now) else Waiting(v.now)]
    ensures StationOk(v') && SiteOk(v')
  {
    var x := if granted then Granted(v.now) else Waiting(v.now);
    CountAfterUpdate(v.pcs, i, x, AtSite);
    CountAfterUpdate(v.pcs, i, x, HoldsSlot);
    var q := v.station.waiting;
    if !granted {
      assert v'.station.waiting == q + [i];
      assert i !in q;
      forall a | 0 <= a < |q|
        ensures v'.pcs[q[a]] == v.pcs[q[a]] && v'.pcs[q[a]].since <= v.now
      {
        assert TruckOk(v, q[a]);
      }
    }
  }

  /** With nobody waiting, the returning truck's unload slot becomes free. */
  lemma ReturnToFreeStation(v: World, i: nat, u: real)
    requires Ready(v, i) && StationOk(v) && SiteOk(v)
    requires 0.0 <= u < 1.0
    requires v.pcs[i].ToSite? && |v.station.waiting| == 0
    ensures Safe(Serve(v, i, u))
  {
    CountHitsOne(v.pcs, i, HoldsSlot);
    var rel := Release(v.station);
    var v1 := v.(station := rel.resource, site := Request(v.site, i).resource);
    assert rel.next == None;
    assert Resume(v.trucks[i], ToSite, v.now, 0.0, false).pc == SiteRequested;
    CountAfterUpdate(v.pcs, i, SiteRequested, AtSite);
    CountAfterUpdate(v.pcs, i, SiteRequested, HoldsSlot);
    ReadyIgnoresPools(v, v1, i);
    ContinueKeepsSafe(v1, i, 0.0, false);
  }

  /** With trucks waiting, the returning truck's unload slot passes to the oldest of them. */
  lemma ReturnToBusyStation(v: World, i: nat, u: real)
    requires Ready(v, i) && StationOk(v) && SiteOk(v)
    requires 0.0 <= u < 1.0
    requires v.pcs[i].ToSite? && |v.station.waiting| > 0
    ensures Safe(Serve(v, i, u))
  {
    CountHitsOne(v.pcs, i, HoldsSlot);
    var rel := Release(v.station);
    var v1 := v.(station := rel.resource, site := Request(v.site, i).resource);
    var h := v.station.waiting[0];
    assert rel.next == Some(h) && h != i;
    var v2 := v1.(pcs := v1.pcs[h := Granted(v.pcs[h].since)]);
    HandOverReady(v, v2, i, h);
    assert Resume(v.trucks[i], ToSite, v.now, 0.0, false).pc == SiteRequested;
    HandOverBooks(v, v2.(pcs := v2.pcs[i := SiteRequested]), i);
    ContinueKeepsSafe(v2, i, 0.0, false);
    var w1 := Continue(v2, i, 0.0, false);
    WakeGrantedKeepsSafe(w1, h);
    assert Serve(v, i, u) == Schedule(w1, h, 0.0);
  }

  /** Marking the oldest waiter as granted keeps the returning truck ready to run. */
  lemma HandOverReady(v: World, v': World, i: nat, h: nat)
    requires Ready(v, i) && StationOk(v)
    requires |v.station.waiting| > 0 && h == v.station.waiting[0] && h != i
    requires v'.now == v.now && v'.agenda == v.agenda && v'.nextId == v.nextId
    requires v'.trucks == v.trucks && v'.pcs == v.pcs[h := Granted(v.pcs[h].since)]
    ensures Ready(v', i)
    ensures forall x :: x in v'.agenda ==> x.pid != h
  {
    assert TruckOk(v, h);
    forall j | 0 <= j < |v'.pcs| && j != i
      ensures TruckOk(v', j)
    {
      assert TruckOk(v, j);
    }
  }

  /** The pools' books after the returning truck `i` hands its unload slot to the oldest waiter. */
  lemma HandOverBooks(v: World, v': World, i: nat)
    requires StationOk(v) && SiteOk(v)
    requires i < |v.pcs| && v.pcs[i].ToSite?
    requires |v.station.waiting| > 0 && SlotsHeld(v) >= 1
    requires v'.station == Release(v.station).resource && v'.site == Request(v.site, i).resource
    requires v'.pcs == v.pcs[v.station.waiting[0] := Granted(v.pcs[v.station.waiting[0]].since)][i := SiteRequested]
    ensures StationOk(v') && SiteOk(v')
  {
    var q := v.station.waiting;
    var h := q[0];
    var since := v.pcs[h].since;
    var rel := Release(v.station);
    assert h != i;
    CountAfterUpdate(v.pcs, h, Granted(since), HoldsSlot);
    CountAfterUpdate(v.pcs[h := Granted(since)], i, SiteRequested, HoldsSlot);
    CountAfterUpdate(v.pcs, h, Granted(since), AtSite);
    CountAfterUpdate(v.pcs[h := Granted(since)], i, SiteRequested, AtSite);
    assert rel.resource.waiting == q[1..];
    forall k | 0 <= k < |q| - 1
      ensures q[1..][k] != h && v'.pcs[q[1..][k]] == v.pcs[q[1..][k]]
    {
      assert q[1..][k] == q[k + 1];
    }
    forall j | 0 <= j < |v'.pcs| && v'.pcs[j].Waiting?
      ensures j in q[1..]
    {
      assert j in q;
      assert j != q[0];
    }
  }

  /**
    Serving an event moves no truck's counters backwards, keeps the number of
    unload stations, and changes the unload line only first come, first
    served: the woken truck joins its end, or its head is granted a slot.
   */
  lemma ServeAdvances(v: World, i: nat, u: real)
    requires Ready(v, i) && StationOk(v) && SiteOk(v)
    requires 0.0 <= u < 1.0
    ensures |Serve(v, i, u).trucks| == |v.trucks|
    ensures forall j :: 0 <= j < |v.trucks| ==> Advances(v.trucks[j], Serve(v, i, u).trucks[j])
    ensures Serve(v, i, u).station.capacity == v.station.capacity
    ensures var q := v.station.waiting; var q' := Serve(v, i, u).station.waiting;
            q' == q || q' == q + [i] || (|q| > 0 && q' == q[1..])
  {
    match v.pcs[i]
    case Start =>
      ContinueAdvances(v.(site := Request(v.site, i).resource), i, 0.0, false);
    case SiteRequested =>
      ServeUnfoldsMining(v, i, u);
      ContinueAdvances(v.(drawn := v.drawn + 1), i, RandomMiningMinutes(u), false);
    case Mining(_) =>
      ContinueAdvances(v, i, 0.0, false);
    case Granted(_) =>
      ContinueAdvances(v, i, 0.0, false);
    case Unloading =>
      ContinueAdvances(v, i, 0.0, false);
    case ToStation =>
      CountHitsOne(v.pcs, i, AtSite);
      var req := Request(v.station, i);
      ContinueAdvances(v.(site := Release(v.site).resource, station := req.resource), i, 0.0, req.granted);
    case ToSite =>
      ReturnAdvances(v, i, u);
      hide Serve;
  }

  /** Running truck `i` moves no truck's counters backwards. */
  lemma ContinueAdvances(v: World, i: nat, minutes: real, room: bool)
    requires i < |v.trucks| == |v.pcs|
    requires TruckInv(v.trucks[i], v.pcs[i]) && Fits(v.trucks[i], v.pcs[i], v.now)
    requires v.pcs[i].SiteRequested? ==> MinMiningMinutes <= minutes < MaxMiningMinutes
    requires Sorted(v.agenda) && IdsBelow(v.agenda, v.nextId)
    ensures |Continue(v, i, minutes, room).trucks| == |v.trucks|
    ensures forall j :: 0 <= j < |v.trucks| ==> Advances(v.trucks[j], Continue(v, i, minutes, room).trucks[j])
  {
    ContinueTouchesOnly(v, i, minutes, room);
  }

  /** The returning truck's step, with or without a hand-over, as in `ServeAdvances`. */
  lemma ReturnAdvances(v: World, i: nat, u: real)
    requires Ready(v, i) && StationOk(v) && SiteOk(v)
    requires 0.0 <= u < 1.0
    requires v.pcs[i].ToSite?
    ensures |Serve(v, i, u).trucks| == |v.trucks|
    ensures forall j :: 0 <= j < |v.trucks| ==> Advances(v.trucks[j], Serve(v, i, u).trucks[j])
    ensures Serve(v, i, u).station.capacity == v.station.capacity
    ensures var q := v.station.waiting; var q' := Serve(v, i, u).station.waiting;
            q' == q || (|q| > 0 && q' == q[1..])
  {
    CountHitsOne(v.pcs, i, HoldsSlot);
    var rel := Release(v.station);
    var v1 := v.(station := rel.resource, site := Request(v.site, i).resource);
    if |v.station.waiting| == 0 {
      ContinueAdvances(v1, i, 0.0, false);
    } else {
      var h := v.station.waiting[0];
      var v2 := v1.(pcs := v1.pcs[h := Granted(v1.pcs[h].since)]);
      ContinueAdvances(v2, i, 0.0, false);
      assert Serve(v, i, u) == Schedule(Continue(v2, i, 0.0, false), h, 0.0);
      hide Serve;
    }
  }

  /**
    A freed unload slot goes to a waiting truck that joined the line no later
    than any other waiting truck.
   */
  lemma FreedSlotGoesToEarliest(w: World)
    requires Safe(w) && |w.station.waiting| > 0 && w.station.inUse >= 1
    ensures var h := w.station.waiting[0];
            && Release(w.station).next == Some(h)
            && h < |w.pcs| && w.pcs[h].Waiting?
            && forall j :: 0 <= j < |w.pcs| && w.pcs[j].Waiting? ==> w.pcs[h].since <= w.pcs[j].since
  {
    var q := w.station.waiting;
    forall j | 0 <= j < |w.pcs| && w.pcs[j].Waiting?
      ensures w.pcs[q[0]].since <= w.pcs[j].since
    {
      var b :| 0 <= b < |q| && q[b] == j;
      if b > 0 {
        assert w.pcs[q[0]].since <= w.pcs[q[b]].since;
      }
    }
  }
}
