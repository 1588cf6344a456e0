/**
  A pool of identical slots shared by processes, with a first-come,
  first-served line of processes waiting for a slot. The unload stations are
  one bounded pool of `m` slots; the mining sites are one unbounded pool.
 */
module Resources {
  import opened Wrappers

  datatype Capacity = Bounded(limit: nat) | Unbounded

  /** `inUse` slots are held; `waiting` lists the waiting process ids, oldest first. */
  datatype Resource = Resource(capacity: Capacity, inUse: nat, waiting: seq<nat>)

  datatype ResourceError = NonPositiveCapacity

  /** A bounded pool of `capacity` slots; the pool refuses a capacity below one. */
  function NewBounded(capacity: int): (r: Result<Resource, ResourceError>)
    ensures r.Failure? <==> capacity <= 0
    ensures r.Success? ==> Valid(r.value) && r.value.capacity == Bounded(capacity)
    ensures r.Success? ==> r.value.inUse == 0 && r.value.waiting == []
  {
    if capacity <= 0 then Failure(NonPositiveCapacity)
    else Success(Resource(Bounded(capacity), 0, []))
  }

  /** A pool that never runs out of slots. */
  function NewUnbounded(): (r: Resource)
    ensures Valid(r) && r.capacity.Unbounded?
    ensures r.inUse == 0 && r.waiting == []
  {
    Resource(Unbounded, 0, [])
  }

  /** A slot is free. */
  predicate HasRoom(r: Resource) {
    match r.capacity
    case Unbounded => true
    case Bounded(limit) => r.inUse < limit
  }

  /**
    The pool is never overbooked, and no slot stays free while a process
    waits for one.
   */
  predicate Valid(r: Resource) {
    && (r.capacity.Bounded? ==> 1 <= r.capacity.limit && r.inUse <= r.capacity.limit)
    && (|r.waiting| > 0 ==> !HasRoom(r))
  }

  datatype Requested = Requested(resource: Resource, granted: bool)

  /**
    Process `who` asks for a slot. It gets one at once exactly when one is
    free; otherwise it joins the end of the line and no slot changes hands.
   */
  function Request(r: Resource, who: nat): (res: Requested)
    requires Valid(r)
    ensures Valid(res.resource)
    ensures res.granted <==> HasRoom(r)
    ensures res.resource.capacity == r.capacity
    ensures res.granted ==> res.resource.inUse == r.inUse + 1 && res.resource.waiting == r.waiting
    ensures !res.granted ==> res.resource.inUse == r.inUse && res.resource.waiting == r.waiting + [who]
  {
    if HasRoom(r) then Requested(r.(inUse := r.inUse + 1), true)
    else Requested(r.(waiting := r.waiting + [who]), false)
  }

  datatype Released = Released(resource: Resource, next: Option<nat>)

  /**
    A holder gives its slot back. If processes are waiting, the slot passes
    straight to the oldest of them and the number of held slots is unchanged;
    otherwise the slot becomes free.
   */
  function Release(r: Resource): (res: Released)
    requires Valid(r) && r.inUse >= 1
    ensures Valid(res.resource)
    ensures res.resource.capacity == r.capacity
    ensures |r.waiting| > 0 ==>
              && res.next == Some(r.waiting[0])
              && res.resource.waiting == r.waiting[1..]
              && res.resource.inUse == r.inUse
    ensures |r.waiting| == 0 ==>
              && res.next == None
              && res.resource.waiting == []
              && res.resource.inUse == r.inUse - 1
  {
    if |r.waiting| > 0 then Released(r.(waiting := r.waiting[1..]), Some(r.waiting[0]))
    else Released(r.(inUse := r.inUse - 1), None)
  }

  /** Taking a free slot and giving it straight back leaves the pool as it was. */
  lemma ReleaseUndoesGrant(r: Resource, who: nat)
    requires Valid(r) && HasRoom(r)
    ensures Request(r, who).granted
    ensures Release(Request(r, who).resource) == Released(r, None)
  {
  }

  /** An unbounded pool never keeps anyone waiting. */
  lemma UnboundedNeverWaits(r: Resource, who: nat)
    requires Valid(r) && r.capacity.Unbounded?
    ensures r.waiting == []
    ensures Request(r, who).granted
    ensures Request(r, who).resource.waiting == []
  {
  }
}
