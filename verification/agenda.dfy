/**
  The pending-event list of the virtual clock. Every suspended process that
  waits for a point in virtual time has one event here; the clock always
  serves the earliest due event, and events due at the same instant are
  served in the order they were scheduled.
 */
module Agenda {

  /** Process `pid` resumes at virtual time `due`; `id` is the scheduling order. */
  datatype Event = Event(due: real, id: nat, pid: nat)

  /** `a` is served before `b`: earlier due time, ties broken by scheduling order. */
  predicate Before(a: Event, b: Event) {
    a.due < b.due || (a.due == b.due && a.id < b.id)
  }

  /** The list is in serving order. */
  predicate Sorted(q: seq<Event>) {
    forall i, j :: 0 <= i < j < |q| ==> Before(q[i], q[j])
  }

  /** Every event in the list was scheduled before id `id` was handed out. */
  predicate IdsBelow(q: seq<Event>, id: nat) {
    forall k :: 0 <= k < |q| ==> q[k].id < id
  }

  /** Process `pid` has a wake-up pending in the list. */
  ghost predicate Scheduled(q: seq<Event>, pid: nat) {
    exists e :: e in q && e.pid == pid
  }

  /**
    Schedules `e`, which is newer than every event already listed: it goes after
    every event due no later than it and before every event due strictly later.
   */
  function Insert(q: seq<Event>, e: Event): (r: seq<Event>)
    requires Sorted(q)
    requires IdsBelow(q, e.id)
    ensures Sorted(r)
    ensures multiset(r) == multiset(q) + multiset{e}
    ensures forall x :: x in r <==> x in q || x == e
    ensures |r| == |q| + 1
  {
    if |q| == 0 then [e]
    else if Before(e, q[0]) then [e] + q
    else
      var rest := Insert(q[1..], e);
      assert q == [q[0]] + q[1..];
      assert forall x :: x in rest ==> Before(q[0], x);
      [q[0]] + rest
  }

  /** The head of a sorted list is due no later than any other event in it. */
  lemma HeadIsEarliest(q: seq<Event>)
    requires Sorted(q) && |q| > 0
    ensures forall x :: x in q ==> q[0].due <= x.due
    ensures q[0] !in q[1..]
  {
    forall x | x in q
      ensures q[0].due <= x.due
    {
      var k :| 0 <= k < |q| && q[k] == x;
      if k > 0 {
        assert Before(q[0], q[k]);
      }
    }
    assert forall k :: 1 <= k < |q| ==> Before(q[0], q[k]);
  }

  /**
    A newly scheduled event is served after every event already pending for
    the same instant or earlier, and before every event pending for later.
   */
  lemma InsertAfterSameInstant(q: seq<Event>, e: Event)
    requires Sorted(q) && IdsBelow(q, e.id)
    ensures var r := Insert(q, e);
            forall j, k :: 0 <= j < |r| && 0 <= k < |r| && j != k && r[k] == e ==>
              (j < k <==> r[j].due <= e.due)
  {
    var r := Insert(q, e);
    forall j, k | 0 <= j < |r| && 0 <= k < |r| && j != k && r[k] == e
      ensures j < k <==> r[j].due <= e.due
    {
      if k < j {
        assert Before(e, r[j]);
        assert r[j] in r;
        if r[j] != e {
          var m :| 0 <= m < |q| && q[m] == r[j];
          assert r[j].id < e.id;
        }
      }
    }
  }
}
